// internal/kubernetes/watch.go, seen from several goroutines. Go slices are windows on backing
// arrays; handleEvent copies a slice out under the read lock and iterates it without any lock, while
// Watch appends and Unwatch rebuilds under the write lock, one list operation at a time.

module WatchSlices {
  import opened Strings
  import opened Kube
  import opened WatchIndex

  // Both forward maps in one: their lists never share an array either.
  datatype Ref = ConfigMapRef(key: Key) | SecretRef(key: Key)

  datatype Slice = Slice(addr: nat, len: nat)

  // One list operation of a writer.
  datatype Micro = Append(ref: Ref, pod: Pod) | Sweep(ref: Ref, podKey: Key)

  datatype Writer = Idle | Busy(op: Op, todo: seq<Micro>)

  // An event handler after its read lock: the window it took and how far its loop got.
  datatype Handler = Handler(ref: Ref, window: Slice, next: nat, notified: seq<Pod>)

  // `done` lists the operations whose write lock has been released, oldest first.
  datatype State = State(
    mem: map<nat, seq<Pod>>,
    lists: map<Ref, Slice>,
    done: seq<Op>,
    writer: Writer,
    handlers: map<nat, Handler>)

  const INITIAL := State(map[], map[], [], Idle, map[])

  // ---- The program of each operation.

  function WatchMicros(pod: Pod, volumes: seq<Volume>): seq<Micro> {
    if volumes == [] then []
    else
      var earlier := WatchMicros(pod, volumes[..|volumes| - 1]);
      match volumes[|volumes| - 1].source
      case ConfigMapSource(name, _) => earlier + [Append(ConfigMapRef(NamespacedName(pod.namespace, name)), pod)]
      case SecretSource(name, _) => earlier + [Append(SecretRef(NamespacedName(pod.namespace, name)), pod)]
      case _ => earlier
  }

  function ConfigSweeps(p: Key, keys: seq<Key>): seq<Micro> {
    seq(|keys|, i requires 0 <= i < |keys| => Sweep(ConfigMapRef(keys[i]), p))
  }

  function SecretSweeps(p: Key, keys: seq<Key>): seq<Micro> {
    seq(|keys|, i requires 0 <= i < |keys| => Sweep(SecretRef(keys[i]), p))
  }

  function Program(ix: Index, op: Op): seq<Micro> {
    match op
    case Watch(pod) => WatchMicros(pod, pod.volumes)
    case Unwatch(pod) =>
      ConfigSweeps(KeyOf(pod), Uses(ix.configs, KeyOf(pod))) + SecretSweeps(KeyOf(pod), Uses(ix.secrets, KeyOf(pod)))
  }

  // ---- Steps.

  datatype Action =
    | Acquire(op: Op)
    | AppendInPlace
    | AppendGrow(addr: nat, cells: seq<Pod>)
    | SweepAway
    | SweepInto(addr: nat, cells: seq<Pod>)
    | Release
    | Snapshot(id: nat, ref: Ref)
    | Deliver(id: nat)

  predicate InMemory(s: State, w: Slice) {
    w.len > 0 ==> w.addr in s.mem && w.len <= |s.mem[w.addr]|
  }

  function Cells(s: State, w: Slice): seq<Pod>
    requires InMemory(s, w)
  {
    if w.len == 0 then [] else s.mem[w.addr][..w.len]
  }

  function SliceAt(s: State, r: Ref): Slice {
    if r in s.lists then s.lists[r] else Slice(0, 0)
  }

  predicate Writing(s: State) {
    s.writer.Busy? && s.writer.todo != []
  }

  predicate Enabled(f: Filter, s: State, a: Action) {
    match a
    case Acquire(_) => s.writer.Idle?
    case AppendInPlace =>
      Writing(s) && s.writer.todo[0].Append?
      && (var r := s.writer.todo[0].ref;
          r in s.lists && s.lists[r].addr in s.mem && s.lists[r].len < |s.mem[s.lists[r].addr]|)
    case AppendGrow(addr, cells) =>
      Writing(s) && s.writer.todo[0].Append? && addr !in s.mem
      && (var w := SliceAt(s, s.writer.todo[0].ref);
          && InMemory(s, w)
          && (w.len > 0 ==> w.len == |s.mem[w.addr]|)
          && |cells| > w.len && cells[..w.len] == Cells(s, w) && cells[w.len] == s.writer.todo[0].pod)
    case SweepAway =>
      Writing(s) && s.writer.todo[0].Sweep?
      && (var w := SliceAt(s, s.writer.todo[0].ref);
          InMemory(s, w) && Kept(f, Cells(s, w), s.writer.todo[0].podKey) == [])
    case SweepInto(addr, cells) =>
      Writing(s) && s.writer.todo[0].Sweep? && addr !in s.mem
      && (var w := SliceAt(s, s.writer.todo[0].ref);
          && InMemory(s, w)
          && (var kept := Kept(f, Cells(s, w), s.writer.todo[0].podKey);
              kept != [] && |cells| >= |kept| && cells[..|kept|] == kept))
    case Release => s.writer.Busy? && s.writer.todo == []
    case Snapshot(id, r) => s.writer.Idle? && id !in s.handlers
    case Deliver(id) =>
      id in s.handlers
      && (var h := s.handlers[id]; h.next < h.window.len && InMemory(s, h.window))
  }

  function Do(f: Filter, s: State, a: Action): State
    requires Enabled(f, s, a)
  {
    match a
    case Acquire(op) => s.(writer := Busy(op, Program(Run(f, s.done), op)))
    case AppendInPlace =>
      var m, w := s.writer.todo[0], s.lists[s.writer.todo[0].ref];
      s.(mem := s.mem[w.addr := s.mem[w.addr][w.len := m.pod]],
         lists := s.lists[m.ref := Slice(w.addr, w.len + 1)],
         writer := Busy(s.writer.op, s.writer.todo[1..]))
    case AppendGrow(addr, cells) =>
      var m, w := s.writer.todo[0], SliceAt(s, s.writer.todo[0].ref);
      s.(mem := s.mem[addr := cells],
         lists := s.lists[m.ref := Slice(addr, w.len + 1)],
         writer := Busy(s.writer.op, s.writer.todo[1..]))
    case SweepAway =>
      s.(lists := s.lists - {s.writer.todo[0].ref}, writer := Busy(s.writer.op, s.writer.todo[1..]))
    case SweepInto(addr, cells) =>
      var m, w := s.writer.todo[0], SliceAt(s, s.writer.todo[0].ref);
      s.(mem := s.mem[addr := cells],
         lists := s.lists[m.ref := Slice(addr, |Kept(f, Cells(s, w), m.podKey)|)],
         writer := Busy(s.writer.op, s.writer.todo[1..]))
    case Release => s.(done := s.done + [s.writer.op], writer := Idle)
    case Snapshot(id, r) => s.(handlers := s.handlers[id := Handler(r, SliceAt(s, r), 0, [])])
    case Deliver(id) =>
      var h := s.handlers[id];
      s.(handlers := s.handlers[id := h.(next := h.next + 1, notified := h.notified + [s.mem[h.window.addr][h.next]])])
  }

  predicate StepBy(f: Filter, s: State, a: Action, t: State) {
    Enabled(f, s, a) && t == Do(f, s, a)
  }

  ghost predicate Next(f: Filter, s: State, t: State) {
    exists a :: StepBy(f, s, a, t)
  }

  ghost predicate IsRun(f: Filter, run: seq<State>) {
    && |run| > 0 && run[0] == INITIAL
    && forall i :: 0 < i < |run| ==> StepAt(f, run, i)
  }

  ghost predicate StepAt(f: Filter, run: seq<State>, i: nat)
    requires 0 < i < |run|
  {
    Next(f, run[i - 1], run[i])
  }

  // ---- What the lists mean.

  type View = map<Ref, seq<Pod>>

  function ApplyMicro(f: Filter, v: View, m: Micro): View {
    match m
    case Append(r, pod) => v[r := ListAt(v, r) + [pod]]
    case Sweep(r, p) =>
      var kept := Kept(f, ListAt(v, r), p);
      if kept == [] then v - {r} else v[r := kept]
  }

  function ApplyMicros(f: Filter, v: View, ms: seq<Micro>): View
    decreases |ms|
  {
    if ms == [] then v else ApplyMicros(f, ApplyMicro(f, v, ms[0]), ms[1..])
  }

  function IndexAt(ix: Index, r: Ref): seq<Pod> {
    match r
    case ConfigMapRef(k) => Filed(ix.configs, k)
    case SecretRef(k) => Filed(ix.secrets, k)
  }

  predicate IndexHas(ix: Index, r: Ref) {
    match r
    case ConfigMapRef(k) => k in ix.configs.forward
    case SecretRef(k) => k in ix.secrets.forward
  }

  ghost predicate Shows(v: View, ix: Index) {
    forall r :: (r in v <==> IndexHas(ix, r)) && ListAt(v, r) == IndexAt(ix, r)
  }

  predicate ListsInMemory(s: State) {
    forall r :: r in s.lists ==> s.lists[r].len > 0 && InMemory(s, s.lists[r])
  }

  function ViewOf(s: State): View
    requires ListsInMemory(s)
  {
    map r | r in s.lists :: Cells(s, s.lists[r])
  }

  // ---- The invariant.

  // No two lists share an array.
  ghost predicate Separate(s: State) {
    forall q, r :: q in s.lists && r in s.lists && s.lists[q].addr == s.lists[r].addr ==> q == r
  }

  // A handler's window lies inside what the owner of the array, if any, still covers.
  predicate Covered(s: State, h: Handler) {
    && InMemory(s, h.window)
    && h.next <= h.window.len
    && h.notified == Cells(s, h.window)[..h.next]
    && (h.window.len > 0 ==>
          forall r :: r in s.lists && s.lists[r].addr == h.window.addr ==> h.window.len <= s.lists[r].len)
  }

  ghost predicate Structured(s: State) {
    && ListsInMemory(s)
    && Separate(s)
    && forall id :: id in s.handlers ==> Covered(s, s.handlers[id])
  }

  // The lists are those of the sequential index, and while a writer is at work, those it is heading for.
  ghost predicate Meaningful(f: Filter, s: State)
    requires ListsInMemory(s)
  {
    match s.writer
    case Idle => Shows(ViewOf(s), Run(f, s.done))
    case Busy(op, todo) => Shows(ApplyMicros(f, ViewOf(s), todo), Step(f, Run(f, s.done), op))
  }

  ghost predicate Inv(f: Filter, s: State) {
    Structured(s) && Meaningful(f, s)
  }

  // ---- Memory only changes past the end of a list, or at new addresses.

  predicate SameCells(s: State, t: State, w: Slice) {
    InMemory(s, w) ==> InMemory(t, w) && Cells(t, w) == Cells(s, w)
  }

  lemma NewArrayKeeps(s: State, t: State, addr: nat, cells: seq<Pod>, w: Slice)
    requires addr !in s.mem && t.mem == s.mem[addr := cells]
    ensures SameCells(s, t, w)
  {
  }

  lemma InPlaceKeeps(s: State, t: State, full: Slice, pod: Pod, w: Slice)
    requires full.addr in s.mem && full.len < |s.mem[full.addr]|
    requires t.mem == s.mem[full.addr := s.mem[full.addr][full.len := pod]]
    requires w.addr == full.addr ==> w.len <= full.len
    ensures SameCells(s, t, w)
  {
  }

  // What an append in place makes of the state.
  predicate GrownInPlace(s: State, t: State, r: Ref, pod: Pod) {
    && r in s.lists && s.lists[r].addr in s.mem && s.lists[r].len < |s.mem[s.lists[r].addr]|
    && t.mem == s.mem[s.lists[r].addr := s.mem[s.lists[r].addr][s.lists[r].len := pod]]
    && t.lists == s.lists[r := Slice(s.lists[r].addr, s.lists[r].len + 1)] && t.handlers == s.handlers
  }

  lemma InPlaceList(s: State, t: State, r: Ref, pod: Pod, q: Ref)
    requires Structured(s) && GrownInPlace(s, t, r, pod) && q in s.lists
    ensures t.lists[q].len > 0 && InMemory(t, t.lists[q])
    ensures Cells(t, t.lists[q]) == if q == r then Cells(s, s.lists[r]) + [pod] else Cells(s, s.lists[q])
  {
    if q != r {
      InPlaceKeeps(s, t, s.lists[r], pod, s.lists[q]);
    }
  }

  // One list of the view is another now.
  lemma ViewChanges(s: State, t: State, r: Ref, cells: seq<Pod>)
    requires ListsInMemory(s) && ListsInMemory(t) && t.lists.Keys == s.lists.Keys + {r}
    requires forall q :: q in t.lists ==> ViewOf(t)[q] == if q == r then cells else ViewOf(s)[q]
    ensures ViewOf(t) == ViewOf(s)[r := cells]
  {
    var v, w := ViewOf(s)[r := cells], ViewOf(t);
    assert w.Keys == v.Keys;
    assert forall q :: q in w ==> w[q] == v[q];
  }

  lemma InPlaceLists(s: State, t: State, r: Ref, pod: Pod)
    requires Structured(s) && GrownInPlace(s, t, r, pod)
    ensures ListsInMemory(t)
  {
    forall q | q in t.lists
      ensures t.lists[q].len > 0 && InMemory(t, t.lists[q])
    {
      InPlaceList(s, t, r, pod, q);
    }
  }

  lemma InPlaceSeparate(s: State, t: State, r: Ref, pod: Pod)
    requires Structured(s) && GrownInPlace(s, t, r, pod)
    ensures Separate(t)
  {
    assert forall q :: q in t.lists ==> q in s.lists && t.lists[q].addr == s.lists[q].addr;
  }

  lemma InPlaceView(s: State, t: State, r: Ref, pod: Pod)
    requires Structured(s) && GrownInPlace(s, t, r, pod) && ListsInMemory(t)
    ensures ViewOf(t) == ViewOf(s)[r := ViewOf(s)[r] + [pod]]
  {
    forall q | q in t.lists
      ensures ViewOf(t)[q] == if q == r then ViewOf(s)[r] + [pod] else ViewOf(s)[q]
    {
      InPlaceList(s, t, r, pod, q);
    }
    ViewChanges(s, t, r, ViewOf(s)[r] + [pod]);
  }

  lemma InPlaceCovered(s: State, t: State, r: Ref, pod: Pod, id: nat)
    requires Structured(s) && GrownInPlace(s, t, r, pod) && id in s.handlers
    ensures Covered(t, s.handlers[id]) && SameCells(s, t, s.handlers[id].window)
  {
    assert Covered(s, s.handlers[id]);
    InPlaceKeeps(s, t, s.lists[r], pod, s.handlers[id].window);
  }

  lemma AppendInPlaceStructured(f: Filter, s: State)
    requires Structured(s) && Enabled(f, s, AppendInPlace)
    ensures Structured(Do(f, s, AppendInPlace))
    ensures forall id :: id in s.handlers ==> SameCells(s, Do(f, s, AppendInPlace), s.handlers[id].window)
    ensures ViewOf(Do(f, s, AppendInPlace)) == ApplyMicro(f, ViewOf(s), s.writer.todo[0])
  {
    var t, m := Do(f, s, AppendInPlace), s.writer.todo[0];
    InPlaceLists(s, t, m.ref, m.pod);
    InPlaceSeparate(s, t, m.ref, m.pod);
    InPlaceView(s, t, m.ref, m.pod);
    forall id | id in t.handlers
      ensures Covered(t, t.handlers[id]) && SameCells(s, t, s.handlers[id].window)
    {
      InPlaceCovered(s, t, m.ref, m.pod, id);
    }
  }

  lemma NewListKeeps(s: State, t: State, addr: nat, cells: seq<Pod>)
    requires addr !in s.mem && t.mem == s.mem[addr := cells]
    ensures forall id :: id in s.handlers ==> SameCells(s, t, s.handlers[id].window)
  {
    forall id | id in s.handlers
      ensures SameCells(s, t, s.handlers[id].window)
    {
      NewArrayKeeps(s, t, addr, cells, s.handlers[id].window);
    }
  }

  lemma NewListCovered(s: State, t: State, r: Ref, addr: nat, cells: seq<Pod>, n: nat, id: nat)
    requires Structured(s) && addr !in s.mem && 0 < n <= |cells| && id in s.handlers
    requires t.mem == s.mem[addr := cells] && t.lists == s.lists[r := Slice(addr, n)] && t.handlers == s.handlers
    ensures Covered(t, t.handlers[id])
  {
    var h := s.handlers[id];
    NewArrayKeeps(s, t, addr, cells, h.window);
    assert Covered(s, h);
    forall q | q in t.lists && t.lists[q].addr == h.window.addr && h.window.len > 0
      ensures h.window.len <= t.lists[q].len
    {
      assert q != r;
    }
  }

  lemma NewListAt(s: State, t: State, r: Ref, addr: nat, cells: seq<Pod>, n: nat, q: Ref)
    requires ListsInMemory(s) && addr !in s.mem && 0 < n <= |cells|
    requires t.mem == s.mem[addr := cells] && t.lists == s.lists[r := Slice(addr, n)] && q in t.lists
    ensures t.lists[q].len > 0 && InMemory(t, t.lists[q])
    ensures Cells(t, t.lists[q]) == if q == r then cells[..n] else Cells(s, s.lists[q])
  {
    if q != r {
      NewArrayKeeps(s, t, addr, cells, s.lists[q]);
    }
  }

  lemma NewListView(s: State, t: State, r: Ref, addr: nat, cells: seq<Pod>, n: nat)
    requires ListsInMemory(s) && addr !in s.mem && 0 < n <= |cells|
    requires t.mem == s.mem[addr := cells] && t.lists == s.lists[r := Slice(addr, n)]
    ensures ListsInMemory(t) && ViewOf(t) == ViewOf(s)[r := cells[..n]]
  {
    forall q | q in t.lists
      ensures t.lists[q].len > 0 && InMemory(t, t.lists[q])
      ensures Cells(t, t.lists[q]) == if q == r then cells[..n] else Cells(s, s.lists[q])
    {
      NewListAt(s, t, r, addr, cells, n, q);
    }
    ViewChanges(s, t, r, cells[..n]);
  }

  lemma NewListSeparate(s: State, t: State, r: Ref, addr: nat, n: nat)
    requires Structured(s) && addr !in s.mem && t.lists == s.lists[r := Slice(addr, n)]
    ensures Separate(t)
  {
    assert forall q :: q in s.lists ==> s.lists[q].addr in s.mem;
  }

  lemma NewListStructured(s: State, t: State, r: Ref, addr: nat, cells: seq<Pod>, n: nat)
    requires Structured(s) && addr !in s.mem && 0 < n <= |cells|
    requires t.mem == s.mem[addr := cells] && t.lists == s.lists[r := Slice(addr, n)] && t.handlers == s.handlers
    ensures Structured(t)
    ensures ViewOf(t) == ViewOf(s)[r := cells[..n]]
  {
    NewListView(s, t, r, addr, cells, n);
    NewListSeparate(s, t, r, addr, n);
    forall id | id in t.handlers
      ensures Covered(t, t.handlers[id])
    {
      NewListCovered(s, t, r, addr, cells, n, id);
    }
  }

  lemma CellsListed(s: State, r: Ref)
    requires ListsInMemory(s)
    ensures InMemory(s, SliceAt(s, r)) && Cells(s, SliceAt(s, r)) == ListAt(ViewOf(s), r)
  {
  }

  lemma Grown(cells: seq<Pod>, n: nat)
    requires n < |cells|
    ensures cells[..n + 1] == cells[..n] + [cells[n]]
  {
  }

  lemma AppendGrowStructured(f: Filter, s: State, addr: nat, cells: seq<Pod>)
    requires Structured(s) && Enabled(f, s, AppendGrow(addr, cells))
    ensures Structured(Do(f, s, AppendGrow(addr, cells)))
    ensures forall id :: id in s.handlers ==> SameCells(s, Do(f, s, AppendGrow(addr, cells)), s.handlers[id].window)
    ensures ViewOf(Do(f, s, AppendGrow(addr, cells))) == ApplyMicro(f, ViewOf(s), s.writer.todo[0])
  {
    var t, m := Do(f, s, AppendGrow(addr, cells)), s.writer.todo[0];
    var n := SliceAt(s, m.ref).len;
    NewListStructured(s, t, m.ref, addr, cells, n + 1);
    NewListKeeps(s, t, addr, cells);
    CellsListed(s, m.ref);
    Grown(cells, n);
  }

  lemma SweepIntoStructured(f: Filter, s: State, addr: nat, cells: seq<Pod>)
    requires Structured(s) && Enabled(f, s, SweepInto(addr, cells))
    ensures Structured(Do(f, s, SweepInto(addr, cells)))
    ensures forall id :: id in s.handlers ==> SameCells(s, Do(f, s, SweepInto(addr, cells)), s.handlers[id].window)
    ensures ViewOf(Do(f, s, SweepInto(addr, cells))) == ApplyMicro(f, ViewOf(s), s.writer.todo[0])
  {
    var t, m := Do(f, s, SweepInto(addr, cells)), s.writer.todo[0];
    var n := |Kept(f, Cells(s, SliceAt(s, m.ref)), m.podKey)|;
    NewListStructured(s, t, m.ref, addr, cells, n);
    NewListKeeps(s, t, addr, cells);
    CellsListed(s, m.ref);
  }

  lemma DropListStructured(s: State, t: State, r: Ref)
    requires Structured(s) && t.mem == s.mem && t.lists == s.lists - {r} && t.handlers == s.handlers
    ensures Structured(t)
    ensures ViewOf(t) == ViewOf(s) - {r}
  {
    assert ListsInMemory(t);
    forall id | id in t.handlers
      ensures Covered(t, t.handlers[id])
    {
      assert Covered(s, s.handlers[id]);
    }
  }

  lemma SweepAwayStructured(f: Filter, s: State)
    requires Structured(s) && Enabled(f, s, SweepAway)
    ensures Structured(Do(f, s, SweepAway))
    ensures forall id :: id in s.handlers ==> SameCells(s, Do(f, s, SweepAway), s.handlers[id].window)
    ensures ViewOf(Do(f, s, SweepAway)) == ApplyMicro(f, ViewOf(s), s.writer.todo[0])
  {
    var m := s.writer.todo[0];
    CellsListed(s, m.ref);
    DropListStructured(s, Do(f, s, SweepAway), m.ref);
  }

  // Only handlers change, and all of them are covered.
  lemma HandlersStructured(s: State, t: State)
    requires Structured(s) && t.mem == s.mem && t.lists == s.lists
    requires forall id :: id in t.handlers ==> Covered(s, t.handlers[id])
    ensures Structured(t) && ViewOf(t) == ViewOf(s)
  {
    assert ListsInMemory(t) && Separate(t);
    forall id | id in t.handlers
      ensures Covered(t, t.handlers[id])
    {
      SameMemoryCovered(s, t, t.handlers[id]);
    }
  }

  lemma SameMemoryCovered(s: State, t: State, h: Handler)
    requires t.mem == s.mem && t.lists == s.lists && Covered(s, h)
    ensures Covered(t, h)
  {
  }

  lemma SnapshotCovered(s: State, r: Ref)
    requires Structured(s)
    ensures Covered(s, Handler(r, SliceAt(s, r), 0, []))
  {
    assert Cells(s, SliceAt(s, r))[..0] == [];
  }

  lemma SnapshotStructured(f: Filter, s: State, id: nat, r: Ref)
    requires Structured(s) && Enabled(f, s, Snapshot(id, r))
    ensures Structured(Do(f, s, Snapshot(id, r))) && ViewOf(Do(f, s, Snapshot(id, r))) == ViewOf(s)
  {
    SnapshotCovered(s, r);
    HandlersStructured(s, Do(f, s, Snapshot(id, r)));
  }

  lemma DeliverCovered(s: State, h: Handler)
    requires Covered(s, h) && h.next < h.window.len
    ensures Covered(s, h.(next := h.next + 1, notified := h.notified + [s.mem[h.window.addr][h.next]]))
  {
    Grown(Cells(s, h.window), h.next);
  }

  lemma DeliverStructured(f: Filter, s: State, id: nat)
    requires Structured(s) && Enabled(f, s, Deliver(id))
    ensures Structured(Do(f, s, Deliver(id))) && ViewOf(Do(f, s, Deliver(id))) == ViewOf(s)
  {
    assert Covered(s, s.handlers[id]);
    DeliverCovered(s, s.handlers[id]);
    HandlersStructured(s, Do(f, s, Deliver(id)));
  }

  // ---- The programs compute the sequential steps.

  lemma {:induction false} ApplyMicrosAppend(f: Filter, v: View, a: seq<Micro>, b: seq<Micro>)
    ensures ApplyMicros(f, v, a + b) == ApplyMicros(f, ApplyMicros(f, v, a), b)
    decreases |a|
  {
    if a == [] {
      assert a + b == b;
    } else {
      assert (a + b)[0] == a[0] && (a + b)[1..] == a[1..] + b;
      ApplyMicrosAppend(f, ApplyMicro(f, v, a[0]), a[1..], b);
    }
  }

  lemma ApplyMicrosSnoc(f: Filter, v: View, a: seq<Micro>, m: Micro)
    ensures ApplyMicros(f, v, a + [m]) == ApplyMicro(f, ApplyMicros(f, v, a), m)
  {
    ApplyMicrosAppend(f, v, a, [m]);
    assert [m][1..] == [];
    assert ApplyMicros(f, ApplyMicros(f, v, a), [m])
        == ApplyMicros(f, ApplyMicro(f, ApplyMicros(f, v, a), m), [m][1..]);
  }

  function Watching(ix: Index, pod: Pod, volumes: seq<Volume>): Index {
    Index(FileAll(ix.configs, pod, ConfigKeys(pod, volumes)), FileAll(ix.secrets, pod, SecretKeys(pod, volumes)))
  }

  lemma ShowsConfigAppend(f: Filter, v: View, ix: Index, pod: Pod, k: Key)
    requires Shows(v, ix)
    ensures Shows(ApplyMicro(f, v, Append(ConfigMapRef(k), pod)), ix.(configs := FileOne(ix.configs, pod, k)))
  {
    assert ListAt(v, ConfigMapRef(k)) == Filed(ix.configs, k);
  }

  lemma ShowsSecretAppend(f: Filter, v: View, ix: Index, pod: Pod, k: Key)
    requires Shows(v, ix)
    ensures Shows(ApplyMicro(f, v, Append(SecretRef(k), pod)), ix.(secrets := FileOne(ix.secrets, pod, k)))
  {
    assert ListAt(v, SecretRef(k)) == Filed(ix.secrets, k);
  }

  lemma ShowsConfigSweep(f: Filter, v: View, ix: Index, p: Key, k: Key)
    requires Shows(v, ix)
    ensures Shows(ApplyMicro(f, v, Sweep(ConfigMapRef(k), p)),
                  ix.(configs := Side(PruneOne(f, ix.configs.forward, p, k), ix.configs.reverse)))
  {
    assert ListAt(v, ConfigMapRef(k)) == Filed(ix.configs, k);
  }

  lemma ShowsSecretSweep(f: Filter, v: View, ix: Index, p: Key, k: Key)
    requires Shows(v, ix)
    ensures Shows(ApplyMicro(f, v, Sweep(SecretRef(k), p)),
                  ix.(secrets := Side(PruneOne(f, ix.secrets.forward, p, k), ix.secrets.reverse)))
  {
    assert ListAt(v, SecretRef(k)) == Filed(ix.secrets, k);
  }

  lemma {:induction false} WatchProgram(f: Filter, v: View, ix: Index, pod: Pod, volumes: seq<Volume>)
    requires Shows(v, ix)
    ensures Shows(ApplyMicros(f, v, WatchMicros(pod, volumes)), Watching(ix, pod, volumes))
  {
    if volumes != [] {
      var front, last := volumes[..|volumes| - 1], volumes[|volumes| - 1];
      WatchProgram(f, v, ix, pod, front);
      var earlier, was := WatchMicros(pod, front), Watching(ix, pod, front);
      var w := ApplyMicros(f, v, earlier);
      match last.source
      case ConfigMapSource(name, _) =>
        var k := NamespacedName(pod.namespace, name);
        ApplyMicrosSnoc(f, v, earlier, Append(ConfigMapRef(k), pod));
        FileSnoc(ix.configs, pod, ConfigKeys(pod, front), k);
        ShowsConfigAppend(f, w, was, pod, k);
      case SecretSource(name, _) =>
        var k := NamespacedName(pod.namespace, name);
        ApplyMicrosSnoc(f, v, earlier, Append(SecretRef(k), pod));
        FileSnoc(ix.secrets, pod, SecretKeys(pod, front), k);
        ShowsSecretAppend(f, w, was, pod, k);
      case _ =>
    }
  }

  lemma {:induction false} ConfigSweepsProgram(f: Filter, v: View, ix: Index, p: Key, keys: seq<Key>)
    requires Shows(v, ix)
    ensures Shows(ApplyMicros(f, v, ConfigSweeps(p, keys)),
                  ix.(configs := Side(PruneAll(f, ix.configs.forward, p, keys), ix.configs.reverse)))
  {
    if keys != [] {
      var front, last := keys[..|keys| - 1], keys[|keys| - 1];
      ConfigSweepsProgram(f, v, ix, p, front);
      ApplyMicrosSnoc(f, v, ConfigSweeps(p, front), Sweep(ConfigMapRef(last), p));
      assert ConfigSweeps(p, keys) == ConfigSweeps(p, front) + [Sweep(ConfigMapRef(last), p)];
      ShowsConfigSweep(f, ApplyMicros(f, v, ConfigSweeps(p, front)),
        ix.(configs := Side(PruneAll(f, ix.configs.forward, p, front), ix.configs.reverse)), p, last);
    }
  }

  lemma {:induction false} SecretSweepsProgram(f: Filter, v: View, ix: Index, p: Key, keys: seq<Key>)
    requires Shows(v, ix)
    ensures Shows(ApplyMicros(f, v, SecretSweeps(p, keys)),
                  ix.(secrets := Side(PruneAll(f, ix.secrets.forward, p, keys), ix.secrets.reverse)))
  {
    if keys != [] {
      var front, last := keys[..|keys| - 1], keys[|keys| - 1];
      SecretSweepsProgram(f, v, ix, p, front);
      ApplyMicrosSnoc(f, v, SecretSweeps(p, front), Sweep(SecretRef(last), p));
      assert SecretSweeps(p, keys) == SecretSweeps(p, front) + [Sweep(SecretRef(last), p)];
      ShowsSecretSweep(f, ApplyMicros(f, v, SecretSweeps(p, front)),
        ix.(secrets := Side(PruneAll(f, ix.secrets.forward, p, front), ix.secrets.reverse)), p, last);
    }
  }

  lemma ShowsForwardOnly(v: View, ix: Index, jx: Index)
    requires Shows(v, ix) && ix.configs.forward == jx.configs.forward && ix.secrets.forward == jx.secrets.forward
    ensures Shows(v, jx)
  {
    forall r
      ensures (r in v <==> IndexHas(jx, r)) && ListAt(v, r) == IndexAt(jx, r)
    {
      assert (r in v <==> IndexHas(ix, r)) && ListAt(v, r) == IndexAt(ix, r);
    }
  }

  lemma ProgramMeaning(f: Filter, v: View, ix: Index, op: Op)
    requires Shows(v, ix)
    ensures Shows(ApplyMicros(f, v, Program(ix, op)), Step(f, ix, op))
  {
    match op
    case Watch(pod) => WatchProgram(f, v, ix, pod, pod.volumes);
    case Unwatch(pod) =>
      var p := KeyOf(pod);
      var cms, secs := Uses(ix.configs, p), Uses(ix.secrets, p);
      ConfigSweepsProgram(f, v, ix, p, cms);
      var mid := ix.(configs := Side(PruneAll(f, ix.configs.forward, p, cms), ix.configs.reverse));
      var w := ApplyMicros(f, v, ConfigSweeps(p, cms));
      SecretSweepsProgram(f, w, mid, p, secs);
      ApplyMicrosAppend(f, v, ConfigSweeps(p, cms), SecretSweeps(p, secs));
      ShowsForwardOnly(ApplyMicros(f, w, SecretSweeps(p, secs)),
        mid.(secrets := Side(PruneAll(f, ix.secrets.forward, p, secs), ix.secrets.reverse)), UnwatchStep(f, ix, p));
  }

  // ---- The invariant holds in every run.

  // A list operation done is one less to do.
  lemma MicroMeaningful(f: Filter, s: State, t: State)
    requires ListsInMemory(s) && ListsInMemory(t) && Writing(s) && Meaningful(f, s) && t.done == s.done
    requires t.writer == Busy(s.writer.op, s.writer.todo[1..])
    requires ViewOf(t) == ApplyMicro(f, ViewOf(s), s.writer.todo[0])
    ensures Meaningful(f, t)
  {
  }

  lemma ListStepKeepsInv(f: Filter, s: State, a: Action)
    requires Inv(f, s) && Enabled(f, s, a)
    requires a.AppendInPlace? || a.AppendGrow? || a.SweepAway? || a.SweepInto?
    ensures Inv(f, Do(f, s, a))
    ensures forall id :: id in s.handlers ==> SameCells(s, Do(f, s, a), s.handlers[id].window)
  {
    match a
    {
      case AppendInPlace => AppendInPlaceStructured(f, s);
      case AppendGrow(addr, cells) => AppendGrowStructured(f, s, addr, cells);
      case SweepAway => SweepAwayStructured(f, s);
      case SweepInto(addr, cells) => SweepIntoStructured(f, s, addr, cells);
    }
    MicroMeaningful(f, s, Do(f, s, a));
  }

  lemma LockKeepsInv(f: Filter, s: State, a: Action)
    requires Inv(f, s) && Enabled(f, s, a) && (a.Acquire? || a.Release?)
    ensures Inv(f, Do(f, s, a))
  {
    LockStructured(s, Do(f, s, a));
    if a.Acquire? {
      ProgramMeaning(f, ViewOf(s), Run(f, s.done), a.op);
    } else {
      assert (s.done + [s.writer.op])[..|s.done|] == s.done;
    }
  }

  lemma SameMemory(s: State, t: State)
    requires t.mem == s.mem
    ensures forall id :: id in s.handlers ==> SameCells(s, t, s.handlers[id].window)
  {
  }

  lemma StepKeepsInv(f: Filter, s: State, a: Action)
    requires Inv(f, s) && Enabled(f, s, a)
    ensures Inv(f, Do(f, s, a))
    ensures forall id :: id in s.handlers ==> SameCells(s, Do(f, s, a), s.handlers[id].window)
  {
    match a
    case Acquire(_) =>
      LockKeepsInv(f, s, a);
      SameMemory(s, Do(f, s, a));
    case Release =>
      LockKeepsInv(f, s, a);
      SameMemory(s, Do(f, s, a));
    case Snapshot(id, r) =>
      SnapshotStructured(f, s, id, r);
      SameMemory(s, Do(f, s, a));
    case Deliver(id) =>
      DeliverStructured(f, s, id);
      SameMemory(s, Do(f, s, a));
    case _ => ListStepKeepsInv(f, s, a);
  }

  lemma LockStructured(s: State, t: State)
    requires Structured(s) && t.mem == s.mem && t.lists == s.lists && t.handlers == s.handlers
    ensures Structured(t) && ViewOf(t) == ViewOf(s)
  {
    HandlersStructured(s, t);
  }

  lemma StepKeepsHandler(f: Filter, s: State, a: Action, id: nat)
    requires Enabled(f, s, a) && id in s.handlers
    ensures id in Do(f, s, a).handlers && Do(f, s, a).handlers[id].window == s.handlers[id].window
  {
  }

  lemma RunStep(f: Filter, run: seq<State>, i: nat)
    requires IsRun(f, run) && 0 < i < |run|
    ensures Next(f, run[i - 1], run[i])
  {
    assert StepAt(f, run, i);
  }

  lemma {:induction false} RunKeepsInv(f: Filter, run: seq<State>, i: nat)
    requires IsRun(f, run) && i < |run|
    ensures Inv(f, run[i])
  {
    if i == 0 {
      assert Run(f, []) == EMPTY_INDEX;
      assert ViewOf(INITIAL) == map[];
    } else {
      RunKeepsInv(f, run, i - 1);
      RunStep(f, run, i);
      var a :| StepBy(f, run[i - 1], a, run[i]);
      StepKeepsInv(f, run[i - 1], a);
    }
  }

  // At every moment the write lock is free, the lists are those of the sequential index after the
  // operations completed so far, whatever ran in between.
  lemma QuiescentIndex(f: Filter, run: seq<State>, i: nat, r: Ref)
    requires IsRun(f, run) && i < |run| && run[i].writer.Idle?
    ensures InMemory(run[i], SliceAt(run[i], r))
    ensures Cells(run[i], SliceAt(run[i], r)) == IndexAt(Run(f, run[i].done), r)
  {
    RunKeepsInv(f, run, i);
    assert ListAt(ViewOf(run[i]), r) == IndexAt(Run(f, run[i].done), r);
  }

  lemma StepKeepsWindow(f: Filter, s: State, a: Action, t: State, id: nat)
    requires Inv(f, s) && StepBy(f, s, a, t) && id in s.handlers
    ensures id in t.handlers && t.handlers[id].window == s.handlers[id].window
    ensures SameCells(s, t, s.handlers[id].window)
  {
    StepKeepsInv(f, s, a);
    StepKeepsHandler(f, s, a, id);
  }

  lemma NextKeepsWindow(f: Filter, s: State, t: State, id: nat)
    requires Inv(f, s) && Next(f, s, t) && id in s.handlers
    ensures id in t.handlers && t.handlers[id].window == s.handlers[id].window
    ensures SameCells(s, t, s.handlers[id].window)
  {
    var a :| StepBy(f, s, a, t);
    StepKeepsWindow(f, s, a, t, id);
  }

  // No step writes a cell that an event in flight may still read.
  lemma NoInterference(f: Filter, run: seq<State>, i: nat, id: nat)
    requires IsRun(f, run) && 0 < i < |run| && id in run[i - 1].handlers
    ensures id in run[i].handlers && run[i].handlers[id].window == run[i - 1].handlers[id].window
    ensures SameCells(run[i - 1], run[i], run[i].handlers[id].window)
  {
    RunKeepsInv(f, run, i - 1);
    RunStep(f, run, i);
    NextKeepsWindow(f, run[i - 1], run[i], id);
  }

  lemma {:induction false} WindowFixed(f: Filter, run: seq<State>, i: nat, j: nat, id: nat)
    requires IsRun(f, run) && i <= j < |run| && id in run[i].handlers
    ensures id in run[j].handlers && run[j].handlers[id].window == run[i].handlers[id].window
    ensures InMemory(run[i], run[i].handlers[id].window) && InMemory(run[j], run[i].handlers[id].window)
    ensures Cells(run[j], run[i].handlers[id].window) == Cells(run[i], run[i].handlers[id].window)
  {
    RunKeepsInv(f, run, i);
    if i < j {
      WindowFixed(f, run, i, j - 1, id);
      NoInterference(f, run, j, id);
    }
  }

  // Only taking a slice adds a handler, and only while nobody writes.
  lemma SliceTaken(f: Filter, s: State, t: State, id: nat)
    requires Next(f, s, t) && id !in s.handlers && id in t.handlers
    ensures s.writer.Idle? && t.mem == s.mem && t.handlers[id].window == SliceAt(s, t.handlers[id].ref)
  {
    var a :| StepBy(f, s, a, t);
    assert a.Snapshot? && a.id == id;
  }

  lemma CoveredTells(s: State, h: Handler, filed: seq<Pod>)
    requires Covered(s, h) && Cells(s, h.window) == filed
    ensures h.next <= h.window.len == |filed| && h.notified == filed[..h.next]
    ensures h.next == h.window.len ==> h.notified == filed
  {
    assert filed[..|filed|] == filed;
  }

  // An event that took its slice at step i tells, from then on and under any interleaving, exactly
  // the pods the index listed at that moment: a prefix of them in order, and all of them at the end.
  lemma EventNotifiesSnapshot(f: Filter, run: seq<State>, i: nat, j: nat, id: nat)
    requires IsRun(f, run) && 0 < i <= j < |run|
    requires id !in run[i - 1].handlers && id in run[i].handlers
    ensures run[i - 1].writer.Idle? && id in run[j].handlers
    ensures
      var filed := IndexAt(Run(f, run[i - 1].done), run[i].handlers[id].ref);
      var h := run[j].handlers[id];
      && h.next <= h.window.len == |filed|
      && h.notified == filed[..h.next]
      && (h.next == h.window.len ==> h.notified == filed)
  {
    RunStep(f, run, i);
    SliceTaken(f, run[i - 1], run[i], id);
    QuiescentIndex(f, run, i - 1, run[i].handlers[id].ref);
    WindowFixed(f, run, i, j, id);
    RunKeepsInv(f, run, j);
    assert Covered(run[j], run[j].handlers[id]);
    CoveredTells(run[j], run[j].handlers[id], IndexAt(Run(f, run[i - 1].done), run[i].handlers[id].ref));
  }

  // ---- The machine is never stuck: the guards above do not rule interleavings out.

  lemma {:induction false} FreshAddress(used: set<nat>) returns (addr: nat)
    ensures addr !in used && forall x :: x in used ==> x < addr
    decreases used
  {
    if used == {} {
      addr := 0;
    } else {
      var x :| x in used;
      var bound := FreshAddress(used - {x});
      addr := if x < bound then bound else x + 1;
      assert forall y :: y in used ==> y == x || y in used - {x};
    }
  }

  lemma WriterCanStep(f: Filter, s: State) returns (a: Action)
    requires Inv(f, s) && s.writer.Busy?
    ensures Enabled(f, s, a) && !a.Snapshot? && !a.Deliver?
  {
    var addr := FreshAddress(s.mem.Keys);
    if s.writer.todo == [] {
      a := Release;
    } else {
      var m := s.writer.todo[0];
      var w := SliceAt(s, m.ref);
      match m
      case Append(r, pod) =>
        if r in s.lists && w.len < |s.mem[w.addr]| {
          a := AppendInPlace;
        } else {
          a := AppendGrow(addr, Cells(s, w) + [pod]);
        }
      case Sweep(r, p) =>
        var kept := Kept(f, Cells(s, w), p);
        a := if kept == [] then SweepAway else SweepInto(addr, kept);
    }
  }

  lemma HandlerCanStep(f: Filter, s: State, id: nat)
    requires Inv(f, s) && id in s.handlers && s.handlers[id].next < s.handlers[id].window.len
    ensures Enabled(f, s, Deliver(id))
  {
    assert Covered(s, s.handlers[id]);
  }

  // ---- Events that an Unwatch overtakes.

  // Step u released the write lock of that operation.
  predicate Completes(run: seq<State>, u: nat, op: Op) {
    0 < u < |run| && run[u].done == run[u - 1].done + [op]
  }

  lemma Forgotten(f: Filter, done: seq<Op>, pod: Pod, r: Ref, entry: Pod)
    requires done != [] && done[|done| - 1] == Unwatch(pod) && entry in IndexAt(Run(f, done), r)
    ensures KeyOf(entry) != KeyOf(pod)
  {
    var k := |done| - 1;
    assert done == done[..k] + [Unwatch(pod)];
    match r
    case ConfigMapRef(key) => UnwatchForgets(f, done[..k], pod, ConfigMapEvent(key));
    case SecretRef(key) => UnwatchForgets(f, done[..k], pod, SecretEvent(key));
  }

  // An event that took its slice at step i and has told the first n of it when an Unwatch is done, at step
  // u, goes on to tell the others: the pod that is gone iff it is among them. The index has it no more.
  lemma LateDelivery(f: Filter, run: seq<State>, i: nat, u: nat, j: nat, id: nat, pod: Pod)
    requires IsRun(f, run) && 0 < i <= u <= j < |run| && Completes(run, u, Unwatch(pod))
    requires id !in run[i - 1].handlers && id in run[i].handlers
    ensures id in run[u].handlers && id in run[j].handlers
    ensures
      var filed := IndexAt(Run(f, run[i - 1].done), run[i].handlers[id].ref);
      var n, h := run[u].handlers[id].next, run[j].handlers[id];
      && n <= h.next <= |filed| && n <= |h.notified|
      && h.notified[n..] == filed[n..h.next]
      && (h.next == h.window.len ==> (pod in h.notified[n..] <==> pod in filed[n..]))
    ensures forall r, entry :: entry in IndexAt(Run(f, run[u].done), r) ==> KeyOf(entry) != KeyOf(pod)
  {
    EventNotifiesSnapshot(f, run, i, u, id);
    EventNotifiesSnapshot(f, run, i, j, id);
    NextGrows(f, run, u, j, id);
    forall r, entry | entry in IndexAt(Run(f, run[u].done), r)
      ensures KeyOf(entry) != KeyOf(pod)
    {
      Forgotten(f, run[u].done, pod, r, entry);
    }
  }

  lemma NextStays(f: Filter, s: State, a: Action, id: nat)
    requires Enabled(f, s, a) && id in s.handlers
    ensures id in Do(f, s, a).handlers && s.handlers[id].next <= Do(f, s, a).handlers[id].next
  {
  }

  lemma {:induction false} NextGrows(f: Filter, run: seq<State>, u: nat, j: nat, id: nat)
    requires IsRun(f, run) && u <= j < |run| && id in run[u].handlers
    ensures id in run[j].handlers && run[u].handlers[id].next <= run[j].handlers[id].next
  {
    if u < j {
      NextGrows(f, run, u, j - 1, id);
      RunStep(f, run, j);
      var a :| StepBy(f, run[j - 1], a, run[j]);
      NextStays(f, run[j - 1], a, id);
    }
  }

  // An event that takes its slice only then does not tell it.
  lemma NoLateDelivery(f: Filter, run: seq<State>, i: nat, j: nat, id: nat, pod: Pod)
    requires IsRun(f, run) && 0 < i <= j < |run| && id !in run[i - 1].handlers && id in run[i].handlers
    requires run[i - 1].done != [] && run[i - 1].done[|run[i - 1].done| - 1] == Unwatch(pod)
    ensures id in run[j].handlers
    ensures forall entry :: entry in run[j].handlers[id].notified ==> KeyOf(entry) != KeyOf(pod)
  {
    EventNotifiesSnapshot(f, run, i, j, id);
    var r := run[i].handlers[id].ref;
    forall entry | entry in run[j].handlers[id].notified
      ensures KeyOf(entry) != KeyOf(pod)
    {
      assert entry in IndexAt(Run(f, run[i - 1].done), r);
      Forgotten(f, run[i - 1].done, pod, r, entry);
    }
  }

  // And it happens: watch a pod with one ConfigMap, take the slice for an event, unwatch, then tell.

  function LateActions(pod: Pod): seq<Action>
    requires |pod.volumes| == 1 && pod.volumes[0].source.ConfigMapSource?
  {
    [Acquire(Watch(pod)), AppendGrow(0, [pod]), Release, Snapshot(0, LateRef(pod)),
     Acquire(Unwatch(pod)), SweepAway, Release, Deliver(0)]
  }

  function LateRef(pod: Pod): Ref
    requires |pod.volumes| == 1 && pod.volumes[0].source.ConfigMapSource?
  {
    ConfigMapRef(NamespacedName(pod.namespace, pod.volumes[0].source.configMapName))
  }

  // The state after each of these actions.
  function LateState(pod: Pod, k: nat): State
    requires |pod.volumes| == 1 && pod.volumes[0].source.ConfigMapSource?
  {
    var r, cells, list := LateRef(pod), map[0 := [pod]], Slice(0, 1);
    var h := Handler(r, list, 0, []);
    if k == 0 then INITIAL
    else if k == 1 then State(map[], map[], [], Busy(Watch(pod), [Append(r, pod)]), map[])
    else if k == 2 then State(cells, map[r := list], [], Busy(Watch(pod), []), map[])
    else if k == 3 then State(cells, map[r := list], [Watch(pod)], Idle, map[])
    else if k == 4 then State(cells, map[r := list], [Watch(pod)], Idle, map[0 := h])
    else if k == 5 then State(cells, map[r := list], [Watch(pod)], Busy(Unwatch(pod), [Sweep(r, KeyOf(pod))]),
      map[0 := h])
    else if k == 6 then State(cells, map[], [Watch(pod)], Busy(Unwatch(pod), []), map[0 := h])
    else if k == 7 then State(cells, map[], [Watch(pod), Unwatch(pod)], Idle, map[0 := h])
    else State(cells, map[], [Watch(pod), Unwatch(pod)], Idle, map[0 := Handler(r, list, 1, [pod])])
  }

  lemma LateWatch(pod: Pod)
    requires |pod.volumes| == 1 && pod.volumes[0].source.ConfigMapSource?
    ensures Program(EMPTY_INDEX, Watch(pod)) == [Append(LateRef(pod), pod)]
  {
    assert pod.volumes[..0] == [];
    assert WatchMicros(pod, []) == [];
  }

  lemma LateUses(f: Filter, pod: Pod)
    requires |pod.volumes| == 1 && pod.volumes[0].source.ConfigMapSource?
    ensures
      var ix, k := Run(f, [Watch(pod)]), NamespacedName(pod.namespace, pod.volumes[0].source.configMapName);
      Uses(ix.configs, KeyOf(pod)) == [k] && Uses(ix.secrets, KeyOf(pod)) == []
  {
    var k := NamespacedName(pod.namespace, pod.volumes[0].source.configMapName);
    assert pod.volumes[..0] == [] && [Watch(pod)][..0] == [] && [k][..0] == [];
    assert Run(f, []) == EMPTY_INDEX;
    assert ConfigKeys(pod, pod.volumes) == [] + [k] && SecretKeys(pod, pod.volumes) == [];
  }

  lemma LateUnwatch(f: Filter, pod: Pod)
    requires |pod.volumes| == 1 && pod.volumes[0].source.ConfigMapSource?
    ensures Program(Run(f, [Watch(pod)]), Unwatch(pod)) == [Sweep(LateRef(pod), KeyOf(pod))]
  {
    LateUses(f, pod);
    assert [Sweep(LateRef(pod), KeyOf(pod))] + [] == [Sweep(LateRef(pod), KeyOf(pod))];
  }

  lemma LateKept(f: Filter, pod: Pod)
    ensures Kept(f, [pod], KeyOf(pod)) == []
  {
    assert [pod][..0] == [];
    assert Kept(f, [pod], KeyOf(pod)) == Kept(f, [], KeyOf(pod)) + [];
  }

  lemma LateEarly(f: Filter, pod: Pod, k: nat)
    requires k < 4 && |pod.volumes| == 1 && pod.volumes[0].source.ConfigMapSource?
    ensures StepBy(f, LateState(pod, k), LateActions(pod)[k], LateState(pod, k + 1))
  {
    LateWatch(pod);
    assert Run(f, []) == EMPTY_INDEX;
    assert [Append(LateRef(pod), pod)][1..] == [] && [pod][..0] == [] && [] + [Watch(pod)] == [Watch(pod)];
  }

  lemma LateAcquire(f: Filter, pod: Pod)
    requires |pod.volumes| == 1 && pod.volumes[0].source.ConfigMapSource?
    ensures StepBy(f, LateState(pod, 4), LateActions(pod)[4], LateState(pod, 5))
  {
    LateUnwatch(f, pod);
  }

  lemma LateSweep(f: Filter, pod: Pod)
    requires |pod.volumes| == 1 && pod.volumes[0].source.ConfigMapSource?
    ensures StepBy(f, LateState(pod, 5), LateActions(pod)[5], LateState(pod, 6))
  {
    LateKept(f, pod);
    assert [Sweep(LateRef(pod), KeyOf(pod))][1..] == [] && [pod][..1] == [pod];
  }

  lemma LateRelease(f: Filter, pod: Pod)
    requires |pod.volumes| == 1 && pod.volumes[0].source.ConfigMapSource?
    ensures StepBy(f, LateState(pod, 6), LateActions(pod)[6], LateState(pod, 7))
  {
    assert [Watch(pod)] + [Unwatch(pod)] == [Watch(pod), Unwatch(pod)];
  }

  lemma LateTell(f: Filter, pod: Pod)
    requires |pod.volumes| == 1 && pod.volumes[0].source.ConfigMapSource?
    ensures StepBy(f, LateState(pod, 7), LateActions(pod)[7], LateState(pod, 8))
  {
    assert [pod][..1] == [pod] && [] + [pod] == [pod];
  }

  lemma LateRun(f: Filter, pod: Pod) returns (run: seq<State>)
    requires |pod.volumes| == 1 && pod.volumes[0].source.ConfigMapSource?
    ensures IsRun(f, run) && |run| == 9 && Completes(run, 7, Unwatch(pod))
    ensures 0 in run[7].handlers && run[7].handlers[0].notified == []
    ensures 0 in run[8].handlers && run[8].handlers[0].notified == [pod]
  {
    run := seq(9, k requires 0 <= k < 9 => LateState(pod, k));
    forall i | 0 < i < 9
      ensures StepAt(f, run, i)
    {
      if i <= 4 {
        LateEarly(f, pod, i - 1);
      } else if i == 5 {
        LateAcquire(f, pod);
      } else if i == 6 {
        LateSweep(f, pod);
      } else if i == 7 {
        LateRelease(f, pod);
      } else {
        LateTell(f, pod);
      }
      assert StepBy(f, run[i - 1], LateActions(pod)[i - 1], run[i]);
    }
    assert [Watch(pod)] + [Unwatch(pod)] == [Watch(pod), Unwatch(pod)];
  }
}
