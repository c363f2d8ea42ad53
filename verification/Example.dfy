// One pod for which the results about runs and texts are not empty: what they ask for can be met, on a
// node with an override uid; and the same pod with a command, or a working directory, that makes its unit run
// as root.

module Example {
  import opened Strings
  import opened Kube
  import opened UnitFile
  import opened UnitText
  import opened Shipped
  import opened ByField
  import opened Strays
  import opened Naming
  import opened Users
  import opened CommandLine
  import opened Compile
  import opened Layout
  import opened PodUnits
  import opened Loaded
  import opened Slips
  import opened Recover
  import opened Lifecycle
  import opened Provider

  const NODE := Node("n", "1", "h", "i", "e")

  const ACCOUNTS := Accounts(map["7" := User("7", "7")], map[])

  const HOST := Host(NODE, 7, ACCOUNTS, map[], {}, map[], map[])

  const START := Ids("", "")

  const CARRIED := Ids("7", "7")

  function SampleContainer(command: Option<seq<string>>, dir: string): Container {
    Container("c", "i", command, None, dir, [], [])
  }

  function Sample(command: Option<seq<string>>, dir: string): Pod {
    Pod("ns", "p", "u", "k", None, [], [SampleContainer(command, dir)], [])
  }

  function SampleContext(command: Option<seq<string>>, dir: string): Context {
    ContextAt(Sample(command, dir), map[], 0, CARRIED)
  }

  lemma PlainReturns(v: string, last: bool)
    requires '\n' !in v && !EndsIn(v, '\\')
    ensures Returns(v, last)
  {
    SingleLineReturns(v, last);
  }

  lemma EnvironmentLines(i: nat)
    requires i < 5
    ensures '\n' !in DefaultEnvironment(NODE)[i] && !EndsIn(DefaultEnvironment(NODE)[i], '\\')
  {
    var line := DefaultEnvironment(NODE)[i];
    assert i == 0 ==> line == "HOSTNAME=n";
    assert i == 1 ==> line == "KUBERNETES_SERVICE_PORT=1";
    assert i == 2 ==> line == "KUBERNETES_SERVICE_HOST=h";
    assert i == 3 ==> line == "SYSTEMK_NODE_INTERNAL_IP=i";
    assert i == 4 ==> line == "SYSTEMK_NODE_EXTERNAL_IP=e";
  }

  lemma SampleEnvironment(command: Option<seq<string>>, dir: string)
    ensures EnvironmentFits(Returning(), Environment(HOST, SampleContainer(command, dir)))
  {
    var env := Environment(HOST, SampleContainer(command, dir));
    assert env == DefaultEnvironment(NODE);
    forall i | 0 <= i < |env|
      ensures Returns(env[i], i == |env| - 1)
    {
      EnvironmentLines(i);
      PlainReturns(env[i], i == |env| - 1);
    }
  }

  lemma SampleMeta(command: Option<seq<string>>, dir: string)
    ensures MetaFits(Returning(), Sample(command, dir), Clean(HOST, "i")) && UserFits(Returning(), CARRIED)
  {
    PlainReturns("ns", false);
    PlainReturns("k", false);
    PlainReturns("u", false);
    PlainReturns("i", true);
    PlainReturns("7", false);
  }

  // Every field but the command and the working directory returns.
  lemma SampleFields(command: Option<seq<string>>, dir: string, words: seq<string>)
    ensures OthersFrom(HOST, SampleContainer(command, dir), SampleContext(command, dir), words, 1)
  {
    SampleEnvironment(command, dir);
    SampleMeta(command, dir);
    assert SampleContext(command, dir).previousUnit == "";
    assert BindsOf(SampleContainer(command, dir).volumeMounts, map[]) == Binds([], [], []);
  }

  lemma NoDirectory(host: Host, c: Container, x: Context, words: seq<string>)
    requires c.workingDir == "" && OthersFrom(host, c, x, words, 1)
    ensures OthersFrom(host, c, x, words, 0)
  {
    assert FieldsFit(Returning(), host, c, x, words, 0);
  }

  lemma SampleLoaded(command: Option<seq<string>>, dir: string)
    requires command.Some? ==> |command.value| > 0
    ensures ProperPod(Sample(command, dir)) && AllContainers(Sample(command, dir)) == [SampleContainer(command, dir)]
    ensures Succeeds(HOST, Sample(command, dir), START, 1)
    ensures PackageOf(HOST, Sample(command, dir), START, 0) == SynthOptions()
    ensures ContextOf(HOST, Sample(command, dir), map[], START, 0) == SampleContext(command, dir)
  {
    var pod := Sample(command, dir);
    assert FormatInt(7) == "7";
    assert AllContainers(pod) == [SampleContainer(command, dir)];
    assert SynthIds(HOST, START) == Some(CARRIED);
    SynthIdsAfter(HOST, AllContainers(pod), START, 1);
    SynthSucceeds(HOST, pod, START, 1);
    SynthPackage(HOST, SampleContainer(command, dir));
  }

  lemma SynthExec()
    ensures Values(SynthOptions(), "Service", "ExecStart") == [""]
  {
    var opts := SynthOptions();
    assert opts == [SynthOption(0)] + [SynthOption(1)] + [SynthOption(2)] + [SynthOption(3)];
    ValuesAppend([SynthOption(0)] + [SynthOption(1)] + [SynthOption(2)], [SynthOption(3)], "Service", "ExecStart");
    ValuesAppend([SynthOption(0)] + [SynthOption(1)], [SynthOption(2)], "Service", "ExecStart");
    ValuesAppend([SynthOption(0)], [SynthOption(1)], "Service", "ExecStart");
    assert forall k: nat :: [SynthOption(k)][1..] == [];
  }

  lemma SynthWords(host: Host, c: Container)
    requires c.command == None && c.args == None
    ensures Words(host, SynthOptions(), c) == [""]
  {
    SynthExec();
    assert UnitWords([""]) == [""];
  }

  lemma EmptyExec(host: Host, c: Container, x: Context)
    ensures FieldsFit(Returning(), host, c, x, [""], EXEC)
  {
    PlainReturns("", false);
  }

  // The pod without a command of its own can be stored.
  lemma SampleStorable()
    ensures Storable(HOST, Sample(None, ""), map[], START)
  {
    SampleLoaded(None, "");
    SampleFields(None, "", [""]);
    NoDirectory(HOST, SampleContainer(None, ""), SampleContext(None, ""), [""]);
    SynthWords(HOST, SampleContainer(None, ""));
    EmptyExec(HOST, SampleContainer(None, ""), SampleContext(None, ""));
    OneRawFit(HOST, SampleContainer(None, ""), SampleContext(None, ""));
    SynthMembers();
    OneStorable(HOST, Sample(None, ""), SynthOptions(), SampleContainer(None, ""), SampleContext(None, ""));
  }

  lemma OneRawFit(host: Host, c: Container, x: Context)
    requires ProperCommand(c) && Words(host, SynthOptions(), c) == [""]
    requires OthersFrom(host, c, x, [""], 0) && FieldsFit(Returning(), host, c, x, [""], EXEC)
    ensures RawReturns(host, SynthOptions(), c, x)
  {
    SynthPlaced(c, x);
    assert FieldsFitFrom(Returning(), host, c, x, [""], 0);
  }

  lemma OneStorable(host: Host, pod: Pod, pkg: seq<UnitOption>, c: Container, x: Context)
    requires ProperCommand(c) && AllContainers(pod) == [c] && ProperPod(pod)
    requires Succeeds(host, pod, START, 1) && PackageOf(host, pod, START, 0) == pkg
    requires ContextOf(host, pod, map[], START, 0) == x
    requires !HasSection(pkg, KUBERNETES_SECTION) && RawReturns(host, pkg, c, x)
    ensures Storable(host, pod, map[], START)
  {
    assert StorableAt(host, pod, map[], START, 0);
  }

  // And created on a fresh provider it meets what GetPodRecovers asks for.
  lemma SampleRecovers(properties: string -> Properties) returns (first: string, order: seq<string>)
    ensures Storable(HOST, Sample(None, ""), map[], START)
    ensures MeetsRecovers(HOST, Sample(None, ""), map[], START, properties, first, order)
  {
    SampleStorable();
    SampleLoaded(None, "");
    assert DotFree("ns") && DotFree("c");
    first, order := FreshRecovers(HOST, Sample(None, ""), map[], START, properties);
  }

  // The same pod with this command: its unit runs as root in spite of the override uid.

  predicate OnNode(pod: Pod) {
    && Resolve(pod.securityContext, HOST.accounts, HOST.overrideRootUID) == Some(START)
    && ProperPod(pod) && Succeeds(HOST, pod, START, 1)
  }

  lemma SampleOnNode(command: Option<seq<string>>, dir: string)
    requires command.Some? ==> |command.value| > 0
    ensures OnNode(Sample(command, dir))
  {
    SampleLoaded(command, dir);
  }

  lemma AccountsConsistent()
    ensures Consistent(HOST.accounts) && HOST.overrideRootUID > 0
  {
    assert FormatInt(7) == "7";
  }

  lemma RootOne(host: Host, pod: Pod, c: Container, x: Context)
    requires AllContainers(pod) == [c] && ProperPod(pod) && c.command == Some([SHELL_AS_ROOT]) && c.args == None
    requires c.workingDir == "" && OthersFrom(host, c, x, Words(host, SynthOptions(), c), 1)
    requires Succeeds(host, pod, START, 1) && PackageOf(host, pod, START, 0) == SynthOptions()
    requires ContextOf(host, pod, map[], START, 0) == x
    ensures UsersAt(host, pod, map[], START, 0).Some? && RunsAsRoot(UsersAt(host, pod, map[], START, 0).value)
  {
    SynthExec();
    SynthDelivered();
    SynthPlaced(c, x);
    NoDirectory(host, c, x, Words(host, SynthOptions(), c));
    ShellAsRoot(host, SynthOptions(), c, x);
  }

  lemma SampleRunsAsRoot()
    ensures Consistent(HOST.accounts) && HOST.overrideRootUID > 0 && OnNode(Sample(Some([SHELL_AS_ROOT]), ""))
    ensures
      var users := UsersAt(HOST, Sample(Some([SHELL_AS_ROOT]), ""), map[], START, 0);
      users.Some? && RunsAsRoot(users.value)
  {
    var command := Some([SHELL_AS_ROOT]);
    AccountsConsistent();
    SampleOnNode(command, "");
    SampleLoaded(command, "");
    SampleFields(command, "", Words(HOST, SynthOptions(), SampleContainer(command, "")));
    RootOne(HOST, Sample(command, ""), SampleContainer(command, ""), SampleContext(command, ""));
  }

  // Without a command but with this working directory it does too, and without protections.

  lemma ElsewhereOne(host: Host, pod: Pod, c: Container, x: Context)
    requires AllContainers(pod) == [c] && ProperPod(pod) && c.command == None && c.args == None
    requires c.workingDir == DIRECTORY_ELSEWHERE && x.ids.uid != "" && OthersFrom(host, c, x, [""], 1)
    requires Succeeds(host, pod, START, 1) && PackageOf(host, pod, START, 0) == SynthOptions()
    requires ContextOf(host, pod, map[], START, 0) == x
    ensures UsersAt(host, pod, map[], START, 0).Some? && RunsAsRoot(UsersAt(host, pod, map[], START, 0).value)
    ensures LoadedValues(host, SynthOptions(), c, x, "Service", "ProtectSystem") == []
  {
    SynthWords(host, c);
    SynthDelivered();
    SynthPlaced(c, x);
    EmptyExec(host, c, x);
    assert FieldsFitFrom(Returning(), host, c, x, [""], 1);
    ElsewhereUnprotected(host, SynthOptions(), c, x, 0);
  }

  lemma SampleUnprotected()
    ensures Consistent(HOST.accounts) && HOST.overrideRootUID > 0 && OnNode(Sample(None, DIRECTORY_ELSEWHERE))
    ensures
      var users := UsersAt(HOST, Sample(None, DIRECTORY_ELSEWHERE), map[], START, 0);
      users.Some? && RunsAsRoot(users.value)
  {
    AccountsConsistent();
    SampleOnNode(None, DIRECTORY_ELSEWHERE);
    SampleLoaded(None, DIRECTORY_ELSEWHERE);
    SampleFields(None, DIRECTORY_ELSEWHERE, [""]);
    ElsewhereOne(HOST, Sample(None, DIRECTORY_ELSEWHERE), SampleContainer(None, DIRECTORY_ELSEWHERE),
      SampleContext(None, DIRECTORY_ELSEWHERE));
  }

  lemma BrokenOne(host: Host, pod: Pod, c: Container, x: Context)
    requires AllContainers(pod) == [c] && ProperPod(pod) && c.command == Some(SHELL_TWO_LINES) && c.args == None
    requires Succeeds(host, pod, START, 1) && PackageOf(host, pod, START, 0) == SynthOptions()
    requires ContextOf(host, pod, map[], START, 0) == x
    ensures Parse(Print(UnitAt(host, pod, map[], START, 0))) == None
  {
    SynthExec();
    SynthDelivered();
    ShellUnreadable(host, SynthOptions(), c, x);
  }

  lemma OnePanics(first: string, state: UnitState, order: seq<string>, statusOrder: seq<string>)
    requires Parse(state.unitData) == None
    ensures PodFrom(map[first := state], first, order, statusOrder) == Panics
  {
    BrokenPanics(map[first := state], first, first, order, statusOrder);
  }

  // And with this command: its unit cannot be read, so looking at the pod panics.
  lemma SamplePanics(first: string, state: UnitState, order: seq<string>, statusOrder: seq<string>)
    ensures OnNode(Sample(Some(SHELL_TWO_LINES), ""))
    ensures state.unitData == Print(UnitAt(HOST, Sample(Some(SHELL_TWO_LINES), ""), map[], START, 0))
      ==> PodFrom(map[first := state], first, order, statusOrder) == Panics
  {
    var command := Some(SHELL_TWO_LINES);
    SampleOnNode(command, "");
    SampleLoaded(command, "");
    BrokenOne(HOST, Sample(command, ""), SampleContainer(command, ""), SampleContext(command, ""));
    if Parse(state.unitData) == None {
      OnePanics(first, state, order, statusOrder);
    }
  }
}
