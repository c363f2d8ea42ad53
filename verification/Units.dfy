// The units of a pod by the fields of the pod: when CreatePod's container loop gets through, who its units run as,
// what they mount, what is in their environment, and what they keep of their packages
// (internal/provider/pod.go:76-243).

module Units {
  import opened Strings
  import opened Kube
  import opened UnitFile
  import opened UnitText
  import opened Shipped
  import opened Naming
  import opened Users
  import opened CommandLine
  import opened Compile
  import opened PodUnits
  import opened Loaded

  // ---- Packages.

  const SYNTH_UNIT := "[Unit]\n" + ("Description=systemk\n" + "Documentation=man:systemk(8)\n")
  const SYNTH_SERVICE := "[Service]\n" + "ExecStart=\n"
  const SYNTH_INSTALL := "[Install]\n" + "WantedBy=multi-user.target\n"
  const SYNTH_TEXT := SYNTH_UNIT + ("\n" + (SYNTH_SERVICE + ("\n" + SYNTH_INSTALL)))

  lemma NotIn(o: UnitOption, rest: seq<UnitOption>, section: string)
    requires o.section != section && InSection(rest, section) == [] && OutOfSection(rest, section) == rest
    ensures InSection([o] + rest, section) == [] && OutOfSection([o] + rest, section) == [o] + rest
  {
    assert ([o] + rest)[1..] == rest;
  }

  lemma OnlyIn(o: UnitOption, rest: seq<UnitOption>, section: string)
    requires o.section == section && InSection(rest, section) == [] && OutOfSection(rest, section) == rest
    ensures InSection([o] + rest, section) == [o] && OutOfSection([o] + rest, section) == rest
  {
    assert ([o] + rest)[1..] == rest && [o] + [] == [o] && [] + rest == rest;
  }

  lemma OneNotIn(o: UnitOption, section: string)
    requires o.section != section
    ensures InSection([o], section) == [] && OutOfSection([o], section) == [o]
  {
    NotIn(o, [], section);
    assert [o] + [] == [o];
  }

  // Its parts, section by section.
  lemma SynthParts()
    ensures
      var opts := SynthOptions();
      && opts[1..] == [opts[1], opts[2], opts[3]]
      && InSection(opts[1..], "Unit") == [opts[1]] && OutOfSection(opts[1..], "Unit") == [opts[2], opts[3]]
      && InSection([opts[3]], "Service") == [] && OutOfSection([opts[3]], "Service") == [opts[3]]
  {
    var opts := SynthOptions();
    OneNotIn(opts[3], "Unit");
    OneNotIn(opts[3], "Service");
    assert [opts[2]] + [opts[3]] == [opts[2], opts[3]] && [opts[1]] + [opts[2], opts[3]] == opts[1..];
    NotIn(opts[2], [opts[3]], "Unit");
    OnlyIn(opts[1], [opts[2], opts[3]], "Unit");
  }

  function OptionLine(o: UnitOption): string {
    o.name + "=" + o.value + "\n"
  }

  lemma PrintLast(o: UnitOption)
    ensures Print([o]) == "[" + o.section + "]\n" + OptionLine(o)
    ensures Group([o]) == [o]
  {
    assert [o][1..] == [] && OptionLines([]) == "";
    assert OptionLines([o]) == OptionLine(o) + "";
  }

  lemma PrintOne(o: UnitOption, rest: seq<UnitOption>)
    requires rest != [] && InSection(rest, o.section) == [] && OutOfSection(rest, o.section) == rest
    ensures Print([o] + rest) == "[" + o.section + "]\n" + OptionLine(o) + ("\n" + Print(rest))
    ensures Group([o] + rest) == [o] + Group(rest)
  {
    assert ([o] + rest)[1..] == rest && [o] + [] == [o] && [o][1..] == [] && OptionLines([]) == "";
    assert OptionLines([o]) == OptionLine(o) + "";
  }

  lemma LinesOfTwo(o: UnitOption, p: UnitOption)
    ensures OptionLines([o, p]) == OptionLine(o) + OptionLine(p)
  {
    assert [o, p][1..] == [p] && [p][1..] == [] && OptionLines([]) == "";
    assert OptionLines([p]) == OptionLine(p) + "";
  }

  lemma PrintTwo(o: UnitOption, p: UnitOption, rest: seq<UnitOption>)
    requires rest != [] && p.section == o.section
    requires InSection([p] + rest, o.section) == [p] && OutOfSection([p] + rest, o.section) == rest
    ensures Print([o, p] + rest) == "[" + o.section + "]\n" + (OptionLine(o) + OptionLine(p)) + ("\n" + Print(rest))
    ensures Group([o, p] + rest) == [o, p] + Group(rest)
  {
    var opts := [o, p] + rest;
    assert opts[0] == o && opts[1..] == [p] + rest && [o] + [p] == [o, p];
    LinesOfTwo(o, p);
  }

  lemma SynthLines()
    ensures "[" + "Unit" + "]\n" == "[Unit]\n" && "[" + "Service" + "]\n" == "[Service]\n"
    ensures "[" + "Install" + "]\n" == "[Install]\n"
    ensures OptionLine(SynthOption(0)) == "Description=systemk\n"
    ensures OptionLine(SynthOption(2)) == "ExecStart=\n"
  {
  }

  lemma SynthMoreLines()
    ensures OptionLine(SynthOption(1)) == "Documentation=man:systemk(8)\n"
    ensures OptionLine(SynthOption(3)) == "WantedBy=multi-user.target\n"
  {
  }

  lemma SynthService()
    ensures Print([SynthOption(2), SynthOption(3)]) == SYNTH_SERVICE + ("\n" + SYNTH_INSTALL)
    ensures Group([SynthOption(2), SynthOption(3)]) == [SynthOption(2), SynthOption(3)]
  {
    var o, last := SynthOption(2), SynthOption(3);
    SynthParts();
    PrintLast(last);
    PrintOne(o, [last]);
    SynthLines();
    SynthMoreLines();
    assert [o] + [last] == [o, last];
  }

  lemma SynthPrints()
    ensures Print(SynthOptions()) == SYNTH_TEXT
    ensures Group(SynthOptions()) == SynthOptions()
  {
    var opts := SynthOptions();
    SynthParts();
    SynthService();
    assert [opts[1]] + [opts[2], opts[3]] == opts[1..];
    PrintTwo(opts[0], opts[1], [opts[2], opts[3]]);
    SynthLines();
    SynthMoreLines();
    assert [opts[0], opts[1]] + [opts[2], opts[3]] == opts;
  }

  lemma SynthTrimmed()
    ensures TrimAll(SynthOptions()) == SynthOptions()
  {
    SynthDelivered();
    forall k | 0 <= k < 4
      ensures Trimmed(SynthOptions()[k]) == SynthOptions()[k]
    {
      assert SynthOptions()[k] in SynthOptions();
    }
  }

  lemma SynthComesBack()
    ensures ComesBack(SynthOptions())
  {
    SynthDelivered();
    forall k | 0 <= k < 4
      ensures '\n' !in SynthOption(k).value && !EndsIn(SynthOption(k).value, '\\')
    {
      SynthOneLine(k);
    }
    ComesBackSingleLines(SynthOptions());
  }

  // The unit file that stands behind a container: the one its package ships, or the synthesized one.
  function UnitFileText(host: Host, c: Container): string {
    var image := if c.image in host.cleaned then host.cleaned[c.image] else c.image;
    if image in host.unitTexts then host.unitTexts[image] else SYNTH_TEXT
  }

  lemma PackageParsed(host: Host, c: Container)
    ensures PackageOptions(host, Clean(host, c.image)) == Parse(UnitFileText(host, c))
  {
    SynthPrints();
    SynthTrimmed();
    SynthComesBack();
    SynthDelivered();
    RoundTrip(SynthOptions());
  }

  // The values it has for an option.
  function PackageValues(host: Host, c: Container, section: string, name: string): seq<string> {
    match Parse(UnitFileText(host, c))
    case None => []
    case Some(opts) => Values(opts, section, name)
  }

  // ---- The ids that the loop carries, and when it gets through.

  // The package installs, under the name that was given, and its unit file parses.
  predicate Provided(host: Host, c: Container) {
    c.image !in host.failing && Parse(UnitFileText(host, c)).Some?
  }

  predicate AllProvided(host: Host, containers: seq<Container>, n: nat) {
    forall j :: 0 <= j < n && j < |containers| ==> Provided(host, containers[j])
  }

  // The first user or group that the unit file names is root, or it names none.
  predicate MeansRoot(host: Host, c: Container) {
    var users, groups := PackageValues(host, c, "Service", "User"), PackageValues(host, c, "Service", "Group");
    users == [] || groups == [] || users[0] in ["0", "root"] || groups[0] in ["0", "root"]
  }

  predicate SomeMeansRoot(host: Host, containers: seq<Container>, n: nat) {
    exists j :: 0 <= j < n && j < |containers| && MeansRoot(host, containers[j])
  }

  // No user was asked for, one of the first n units would run as root, and there is an override for that.
  predicate Overridden(host: Host, containers: seq<Container>, ids: Ids, n: nat) {
    ids.uid == "" && host.overrideRootUID > 0 && SomeMeansRoot(host, containers, n)
  }

  lemma RootMeant(host: Host, c: Container)
    requires Parse(UnitFileText(host, c)).Some?
    ensures
      var pkg := Parse(UnitFileText(host, c)).value;
      MeansRoot(host, c)
      <==> LooksRoot(Values(pkg, "Service", "User")) || LooksRoot(Values(pkg, "Service", "Group"))
  {
  }

  // The ids of the account with the override UID.
  function OverrideIds(host: Host): Ids {
    var uid := FormatInt(host.overrideRootUID);
    if uid in host.accounts.byId then Ids(host.accounts.byId[uid].uid, host.accounts.byId[uid].gid) else Ids("", "")
  }

  // What the loop carries, given whether all packages so far were provided and whether one of them means root.
  predicate CarriedRight(host: Host, ids: Ids, provided: bool, root: bool, carried: Option<Ids>) {
    var override := ids.uid == "" && host.overrideRootUID > 0 && root;
    && (carried.Some? <==> provided && (override ==> FormatInt(host.overrideRootUID) in host.accounts.byId))
    && (carried.Some? ==> carried.value == if override then OverrideIds(host) else ids)
  }

  lemma NextCarried(host: Host, c: Container, ids: Ids)
    ensures CarriedRight(host, ids, Provided(host, c), MeansRoot(host, c), NextIds(host, c, ids))
  {
    PackageParsed(host, c);
    if Provided(host, c) {
      RootMeant(host, c);
    }
  }

  // One container after the other, given of each whether it is provided and whether it means root.
  lemma {:induction false} CarriedAlong(host: Host, containers: seq<Container>, ids: Ids, n: nat,
                                        provided: seq<bool>, root: seq<bool>)
    requires n <= |containers| == |provided| == |root|
    requires forall j, before :: 0 <= j < n ==>
      CarriedRight(host, before, provided[j], root[j], NextIds(host, containers[j], before))
    ensures CarriedRight(host, ids, false !in provided[..n], true in root[..n], IdsAfter(host, containers, ids, n))
  {
    if n > 0 {
      var before := IdsAfter(host, containers, ids, n - 1);
      CarriedAlong(host, containers, ids, n - 1, provided, root);
      assert provided[..n] == provided[..n - 1] + [provided[n - 1]];
      assert root[..n] == root[..n - 1] + [root[n - 1]];
      if before.Some? {
        assert CarriedRight(host, before.value, provided[n - 1], root[n - 1],
                            NextIds(host, containers[n - 1], before.value));
      }
    }
  }

  function ProvidedFlags(host: Host, containers: seq<Container>): seq<bool> {
    seq(|containers|, j requires 0 <= j < |containers| => Provided(host, containers[j]))
  }

  function RootFlags(host: Host, containers: seq<Container>): seq<bool> {
    seq(|containers|, j requires 0 <= j < |containers| => MeansRoot(host, containers[j]))
  }

  lemma InFirst(flags: seq<bool>, n: nat, flag: bool)
    requires n <= |flags|
    ensures flag in flags[..n] <==> exists j :: 0 <= j < n && flags[j] == flag
  {
  }

  lemma ProvidedFlagsMean(host: Host, containers: seq<Container>, n: nat)
    requires n <= |containers|
    ensures false !in ProvidedFlags(host, containers)[..n] <==> AllProvided(host, containers, n)
  {
    var flags := ProvidedFlags(host, containers);
    InFirst(flags, n, false);
    assert forall j :: 0 <= j < n ==> (flags[j] <==> Provided(host, containers[j]));
  }

  lemma RootFlagsMean(host: Host, containers: seq<Container>, n: nat)
    requires n <= |containers|
    ensures true in RootFlags(host, containers)[..n] <==> SomeMeansRoot(host, containers, n)
  {
    var flags := RootFlags(host, containers);
    InFirst(flags, n, true);
    assert forall j :: 0 <= j < n ==> (flags[j] <==> MeansRoot(host, containers[j]));
  }

  // The loop gets past n containers iff their packages are there and, if an override is needed, its account is.
  // Then it carries the ids that it started with, or from the first unit that would run as root on the account's.
  lemma LoopCarries(host: Host, containers: seq<Container>, ids: Ids, n: nat)
    requires n <= |containers|
    ensures IdsAfter(host, containers, ids, n).Some?
      <==> AllProvided(host, containers, n)
           && (Overridden(host, containers, ids, n) ==> FormatInt(host.overrideRootUID) in host.accounts.byId)
    ensures IdsAfter(host, containers, ids, n).Some? ==>
      IdsAfter(host, containers, ids, n).value
      == if Overridden(host, containers, ids, n) then OverrideIds(host) else ids
  {
    var provided, root := ProvidedFlags(host, containers), RootFlags(host, containers);
    forall j, before | 0 <= j < n
      ensures CarriedRight(host, before, provided[j], root[j], NextIds(host, containers[j], before))
    {
      NextCarried(host, containers[j], before);
    }
    CarriedAlong(host, containers, ids, n, provided, root);
    ProvidedFlagsMean(host, containers, n);
    RootFlagsMean(host, containers, n);
  }

  // ---- Who the units run as.

  lemma PackageOfUnit(host: Host, pod: Pod, ids: Ids, i: nat, section: string, name: string)
    requires Succeeds(host, pod, ids, i + 1)
    ensures Values(PackageOf(host, pod, ids, i), section, name)
      == PackageValues(host, AllContainers(pod)[i], section, name)
  {
    PackageParsed(host, AllContainers(pod)[i]);
  }

  // What the text of unit i says, if its raw fields return.
  lemma UnitSays(host: Host, pod: Pod, vol: map<string, string>, ids: Ids, i: nat, section: string, name: string)
    requires ProperPod(pod) && Succeeds(host, pod, ids, i + 1) && RawFitAt(Returning(), host, pod, vol, ids, i)
    ensures
      var unit := UnitAt(host, pod, vol, ids, i);
      && Parse(Print(unit)).Some?
      && Values(Parse(Print(unit)).value, section, name) == TrimEach(Values(unit, section, name))
  {
    PackageDelivered(host, Clean(host, AllContainers(pod)[i].image));
    CompiledComesBack(host, PackageOf(host, pod, ids, i), AllContainers(pod)[i], ContextOf(host, pod, vol, ids, i));
    RoundTripValues(UnitAt(host, pod, vol, ids, i), section, name);
  }

  // User and Group of the unit as they are compiled, which is what its text says if its raw fields return.
  predicate RunsAs(host: Host, pod: Pod, vol: map<string, string>, ids: Ids, i: nat, users: seq<string>,
                   groups: seq<string>)
    requires ProperPod(pod) && Succeeds(host, pod, ids, i + 1)
  {
    var unit := UnitAt(host, pod, vol, ids, i);
    && Values(unit, "Service", "User") == users && Values(unit, "Service", "Group") == groups
    && (RawFitAt(Returning(), host, pod, vol, ids, i) ==>
          && Parse(Print(unit)).Some?
          && Values(Parse(Print(unit)).value, "Service", "User") == TrimEach(users)
          && Values(Parse(Print(unit)).value, "Service", "Group") == TrimEach(groups))
  }

  lemma UnitRunsAs(host: Host, pod: Pod, vol: map<string, string>, ids: Ids, i: nat)
    requires ProperPod(pod) && Succeeds(host, pod, ids, i + 1)
    ensures
      var c, carried := AllContainers(pod)[i], IdsAfter(host, AllContainers(pod), ids, i + 1).value;
      if carried.uid != "" then RunsAs(host, pod, vol, ids, i, [carried.uid], [carried.gid])
      else RunsAs(host, pod, vol, ids, i, PackageValues(host, c, "Service", "User"),
                  PackageValues(host, c, "Service", "Group"))
  {
    CompiledUser(host, PackageOf(host, pod, ids, i), AllContainers(pod)[i], ContextOf(host, pod, vol, ids, i));
    PackageOfUnit(host, pod, ids, i, "Service", "User");
    PackageOfUnit(host, pod, ids, i, "Service", "Group");
    if RawFitAt(Returning(), host, pod, vol, ids, i) {
      UnitSays(host, pod, vol, ids, i, "Service", "User");
      UnitSays(host, pod, vol, ids, i, "Service", "Group");
    }
  }

  // The ids that CreatePod starts from.
  predicate StartsFrom(host: Host, pod: Pod, ids: Ids) {
    Resolve(pod.securityContext, host.accounts, host.overrideRootUID) == Some(ids)
  }

  // A security context that asks for a user who is not remapped: every unit of the pod runs as that user, by name
  // before number, with the group that is asked for, or else the user's primary one, whatever the packages say.
  lemma ContextDecides(host: Host, pod: Pod, vol: map<string, string>, ids: Ids, i: nat)
    requires ProperPod(pod) && Succeeds(host, pod, ids, i + 1) && StartsFrom(host, pod, ids)
    requires pod.securityContext.Some? && !NoAccount(pod.securityContext.value, host.accounts)
    requires !Remapped(pod.securityContext.value, host.accounts, host.overrideRootUID)
    ensures
      var s := pod.securityContext.value;
      && (s.runAsUserName.Some? && host.accounts.byName[s.runAsUserName.value].uid != "" ==>
            var u := host.accounts.byName[s.runAsUserName.value];
            RunsAs(host, pod, vol, ids, i, [u.uid],
                   [if s.runAsGroup.Some? then FormatInt(s.runAsGroup.value) else u.gid]))
      && (s.runAsUserName.None? && s.runAsUser.Some? ==>
            var uid := FormatInt(s.runAsUser.value);
            RunsAs(host, pod, vol, ids, i, [uid],
                   [if s.runAsGroup.Some? then FormatInt(s.runAsGroup.value) else host.accounts.byId[uid].gid]))
  {
    ResolvedIds(pod.securityContext, host.accounts, host.overrideRootUID);
    if pod.securityContext.value.runAsUser.Some? {
      UserZero(pod.securityContext.value);
    }
    LoopCarries(host, AllContainers(pod), ids, i + 1);
    UnitRunsAs(host, pod, vol, ids, i);
  }

  // One that asks for root, where there is an override: every unit runs as the account of the override UID.
  lemma ContextRemapped(host: Host, pod: Pod, vol: map<string, string>, ids: Ids, i: nat)
    requires ProperPod(pod) && Succeeds(host, pod, ids, i + 1) && StartsFrom(host, pod, ids)
    requires pod.securityContext.Some? && !NoAccount(pod.securityContext.value, host.accounts)
    requires Remapped(pod.securityContext.value, host.accounts, host.overrideRootUID)
    requires OverrideIds(host).uid != ""
    ensures RunsAs(host, pod, vol, ids, i, [OverrideIds(host).uid], [OverrideIds(host).gid])
  {
    ResolvedRemapped(pod.securityContext.value, host.accounts, host.overrideRootUID);
    ResolvedFails(pod.securityContext, host.accounts, host.overrideRootUID);
    LoopCarries(host, AllContainers(pod), ids, i + 1);
    UnitRunsAs(host, pod, vol, ids, i);
  }

  // If no user is asked for, be it that a group is (ResolvedIds says when): the account of the override UID from the
  // first unit on that would run as root, and before it, or if there is no override, what the package says.
  lemma NobodyCarried(host: Host, pod: Pod, ids: Ids, i: nat)
    requires Succeeds(host, pod, ids, i + 1) && ids.uid == ""
    ensures
      IdsAfter(host, AllContainers(pod), ids, i + 1).value
      == if host.overrideRootUID > 0 && SomeMeansRoot(host, AllContainers(pod), i + 1) then OverrideIds(host) else ids
  {
    LoopCarries(host, AllContainers(pod), ids, i + 1);
  }

  lemma NoUserAsked(host: Host, pod: Pod, vol: map<string, string>, ids: Ids, i: nat)
    requires ProperPod(pod) && Succeeds(host, pod, ids, i + 1) && ids.uid == ""
    ensures
      var c := AllContainers(pod)[i];
      if host.overrideRootUID > 0 && SomeMeansRoot(host, AllContainers(pod), i + 1) && OverrideIds(host).uid != ""
      then RunsAs(host, pod, vol, ids, i, [OverrideIds(host).uid], [OverrideIds(host).gid])
      else RunsAs(host, pod, vol, ids, i, PackageValues(host, c, "Service", "User"),
                  PackageValues(host, c, "Service", "Group"))
  {
    NobodyCarried(host, pod, ids, i);
    UnitRunsAs(host, pod, vol, ids, i);
  }

  // ---- Which container each unit is of.

  function NameFor(pod: Pod, c: Container): string {
    "systemk." + pod.namespace + "." + pod.name + "." + c.name + ".service"
  }

  lemma NamesSpelled(pod: Pod, i: nat)
    requires i < |AllContainers(pod)|
    ensures UnitName(pod, i) == NameFor(pod, AllContainers(pod)[i])
    ensures AllContainers(pod)[i]
      == if i < |pod.initContainers| then pod.initContainers[i] else pod.containers[i - |pod.initContainers|]
  {
    assert PREFIX + "." == "systemk.";
  }

  // The unit that unit i comes after: the one of the last init container before it.
  function PreviousNames(pod: Pod, i: nat): seq<string> {
    var n := |pod.initContainers|;
    var previous := if i < n then i else n;
    if previous > 0 then [NameFor(pod, pod.initContainers[previous - 1])] else []
  }

  lemma EdgeNamed(pod: Pod, i: nat)
    requires i < |AllContainers(pod)|
    ensures (match Predecessor(pod, i) case None => [] case Some(j) => [UnitName(pod, j)]) == PreviousNames(pod, i)
  {
    if Predecessor(pod, i).Some? {
      NamesSpelled(pod, Predecessor(pod, i).value);
    }
  }

  // The init containers one after the other, and the ordinary ones each after the last of these.
  lemma UnitAfter(host: Host, pod: Pod, vol: map<string, string>, ids: Ids, i: nat)
    requires ProperPod(pod) && Succeeds(host, pod, ids, i + 1)
    ensures Values(UnitAt(host, pod, vol, ids, i), "Unit", "After")
      == PackageValues(host, AllContainers(pod)[i], "Unit", "After") + PreviousNames(pod, i)
  {
    AfterEdges(host, pod, vol, ids, i);
    PackageOfUnit(host, pod, ids, i, "Unit", "After");
    EdgeNamed(pod, i);
  }

  // The first units are those of the init containers, which run once and are marked; then come the ordinary ones.
  lemma UnitKinds(host: Host, pod: Pod, vol: map<string, string>, ids: Ids, i: nat)
    requires ProperPod(pod) && Succeeds(host, pod, ids, i + 1)
    ensures
      var n := |pod.initContainers|;
      var c, unit := if i < n then pod.initContainers[i] else pod.containers[i - n], UnitAt(host, pod, vol, ids, i);
      && AllContainers(pod)[i] == c && UnitName(pod, i) == NameFor(pod, c)
      && Values(unit, "Service", "Type") == (if i < n then ["oneshot"] else PackageValues(host, c, "Service", "Type"))
      && Values(unit, "X-Kubernetes", "InitContainer")
        == PackageValues(host, c, "X-Kubernetes", "InitContainer") + (if i < n then ["true"] else [])
  {
    CompiledInit(host, PackageOf(host, pod, ids, i), AllContainers(pod)[i], ContextOf(host, pod, vol, ids, i));
    PackageOfUnit(host, pod, ids, i, "Service", "Type");
    PackageOfUnit(host, pod, ids, i, "X-Kubernetes", "InitContainer");
    NamesSpelled(pod, i);
  }

  // ---- What they mount.

  function OptionFor(a: Access): string {
    match a
    case ReadWrite => "ReadWritePaths"
    case Bound => "BindPaths"
    case ReadOnly => "BindReadOnlyPaths"
  }

  // One more value with all entries of the list, which are those of the mounts at the places ks; no value if there
  // is none.
  lemma UnitMounts(host: Host, pod: Pod, vol: map<string, string>, ids: Ids, i: nat, a: Access)
    returns (list: seq<string>, ks: seq<nat>)
    requires ProperPod(pod) && Succeeds(host, pod, ids, i + 1)
    ensures ListsExactly(list, ks, a, AllContainers(pod)[i].volumeMounts, vol)
    ensures
      var values := PackageValues(host, AllContainers(pod)[i], "Service", OptionFor(a))
        + (if list == [] then [] else [Join(list, " ")]);
      var unit := UnitAt(host, pod, vol, ids, i);
      && Values(unit, "Service", OptionFor(a)) == values
      && (RawFitAt(Returning(), host, pod, vol, ids, i) ==>
            && Parse(Print(unit)).Some?
            && Values(Parse(Print(unit)).value, "Service", OptionFor(a)) == TrimEach(values))
  {
    var c := AllContainers(pod)[i];
    ks := BindsExactly(c.volumeMounts, vol, a);
    list := ListFor(BindsOf(c.volumeMounts, vol), a);
    CompiledMounts(host, PackageOf(host, pod, ids, i), c, ContextOf(host, pod, vol, ids, i), OptionFor(a));
    PackageOfUnit(host, pod, ids, i, "Service", OptionFor(a));
    var values := PackageValues(host, c, "Service", OptionFor(a));
    assert values + [] == values;
    if RawFitAt(Returning(), host, pod, vol, ids, i) {
      UnitSays(host, pod, vol, ids, i, "Service", OptionFor(a));
    }
  }

  // ---- What is in their environment.

  // The lines that the package has, then the node's five, then the pod's, each with its value quoted.
  predicate EnvironmentInOrder(lines: seq<string>, package: seq<string>, node: Compile.Node, env: seq<EnvVar>) {
    var n := |package|;
    && |lines| == n + 5 + |env| && lines[..n] == package
    && lines[n] == "HOSTNAME=" + node.name
    && lines[n + 1] == "KUBERNETES_SERVICE_PORT=" + node.kubernetesPort
    && lines[n + 2] == "KUBERNETES_SERVICE_HOST=" + node.kubernetesHost
    && lines[n + 3] == "SYSTEMK_NODE_INTERNAL_IP=" + node.internalIP
    && lines[n + 4] == "SYSTEMK_NODE_EXTERNAL_IP=" + node.externalIP
    && forall j :: 0 <= j < |env| ==> lines[n + 5 + j] == env[j].name + "=" + Quote(env[j].value)
  }

  lemma LinesInOrder(package: seq<string>, host: Host, c: Container)
    ensures EnvironmentInOrder(package + Environment(host, c), package, host.node, c.env)
  {
  }

  lemma UnitEnvironment(host: Host, pod: Pod, vol: map<string, string>, ids: Ids, i: nat)
    requires ProperPod(pod) && Succeeds(host, pod, ids, i + 1)
    ensures
      var c, unit := AllContainers(pod)[i], UnitAt(host, pod, vol, ids, i);
      && EnvironmentInOrder(Values(unit, "Service", "Environment"), PackageValues(host, c, "Service", "Environment"),
                          host.node, c.env)
      && Values(unit, "Service", "EnvironmentFile") == []
  {
    var c := AllContainers(pod)[i];
    CompiledEnvironment(host, PackageOf(host, pod, ids, i), c, ContextOf(host, pod, vol, ids, i));
    CompiledNoEnvironmentFile(host, PackageOf(host, pod, ids, i), c, ContextOf(host, pod, vol, ids, i));
    PackageOfUnit(host, pod, ids, i, "Service", "Environment");
    LinesInOrder(PackageValues(host, c, "Service", "Environment"), host, c);
  }

  // ---- What they keep of their packages.

  // The options that CreatePod writes or deletes.
  const TOUCHED_SERVICE := [
    "WorkingDirectory", "ProtectSystem", "ProtectHome", "PrivateMounts", "ReadOnlyPaths", "StandardOutput",
    "StandardError", "User", "Group", "Type", "RemainAfterExit", "ExecStart", "TemporaryFileSystem",
    "ReadWritePaths", "BindPaths", "BindReadOnlyPaths", "EnvironmentFile", "Environment"]
  const TOUCHED_KUBERNETES := ["InitContainer", "Namespace", "ClusterName", "Id", "Image"]

  predicate LeftAlone(section: string, name: string) {
    && (section == "Service" ==> name !in TOUCHED_SERVICE)
    && (section == "X-Kubernetes" ==> name !in TOUCHED_KUBERNETES)
    && (section == "Unit" ==> name != "After")
  }

  lemma TouchedOwned(section: string, name: string)
    requires LeftAlone(section, name)
    ensures Owner(section, name) == UNTOUCHED
  {
  }

  // All others have the values of the package's unit file, in order.
  lemma UnitKeeps(host: Host, pod: Pod, vol: map<string, string>, ids: Ids, i: nat, section: string, name: string)
    requires ProperPod(pod) && Succeeds(host, pod, ids, i + 1) && LeftAlone(section, name)
    ensures Values(UnitAt(host, pod, vol, ids, i), section, name)
      == PackageValues(host, AllContainers(pod)[i], section, name)
  {
    TouchedOwned(section, name);
    Frame(host, PackageOf(host, pod, ids, i), AllContainers(pod)[i], ContextOf(host, pod, vol, ids, i), section, name);
    PackageOfUnit(host, pod, ids, i, section, name);
  }
}
