// What is read from the text of a unit that CreatePod loads, which is what the manager stores and systemd
// gets to see; the option list before printing is not the last word.

module Loaded {
  import opened Strings
  import opened Kube
  import opened UnitFile
  import opened UnitText
  import opened Shipped
  import opened ByField
  import opened Strays
  import opened Naming
  import opened Users
  import opened CommandLine
  import opened Compile
  import opened Layout
  import opened PodUnits

  function Text(host: Host, pkg: seq<UnitOption>, c: Container, x: Context): string
    requires ProperCommand(c)
  {
    Print(Compiled(host, pkg, c, x))
  }

  predicate Readable(host: Host, pkg: seq<UnitOption>, c: Container, x: Context)
    requires ProperCommand(c)
  {
    Parse(Text(host, pkg, c, x)).Some?
  }

  function LoadedValues(host: Host, pkg: seq<UnitOption>, c: Container, x: Context, s: string, n: string): seq<string>
    requires ProperCommand(c)
  {
    match Parse(Text(host, pkg, c, x))
    case None => []
    case Some(opts) => Values(opts, s, n)
  }

  // ---- Conditions on raw fields.

  function Returning(): Fit {
    (o: UnitOption, last: bool) => Returns(o.value, last)
  }

  function Parsing(): Fit {
    (o: UnitOption, last: bool) => ValueParses(o.value)
  }

  predicate RawReturns(host: Host, pkg: seq<UnitOption>, c: Container, x: Context)
    requires ProperCommand(c)
  {
    RawFit(Returning(), host, pkg, c, x)
  }

  // The pod's own fields can be read, each by itself.
  predicate RawParses(host: Host, pkg: seq<UnitOption>, c: Container, x: Context)
    requires ProperCommand(c)
  {
    FieldsFitFrom(Parsing(), host, c, x, Words(host, pkg, c), 0)
  }

  lemma GenerousFits()
    ensures Generous(Returning()) && Generous(Parsing())
  {
    forall o: UnitOption, last: bool | Returns(o.value, last)
      ensures Parsing()(o, last)
    {
      ReturningParses(o.value, last);
    }
  }

  lemma {:induction false} PlacedReturning(opts: seq<UnitOption>)
    ensures Placed(Returning(), opts, {}) <==> ComesBack(opts)
  {
    if opts != [] {
      PlacedReturning(opts[1..]);
    }
  }

  // A condition that does not look at the position.
  ghost predicate Anywhere(ok: Fit) {
    forall o: UnitOption, last: bool :: ok(o, last) == ok(o, true)
  }

  lemma {:induction false} PlacedAnywhere(ok: Fit, opts: seq<UnitOption>, later: set<string>)
    requires Anywhere(ok)
    ensures Placed(ok, opts, later) <==> forall o :: o in opts ==> ok(o, true)
  {
    if opts != [] {
      PlacedAnywhere(ok, opts[1..], later);
      assert opts == [opts[0]] + opts[1..];
    }
  }

  lemma KeptFits(ok: Fit, pkg: seq<UnitOption>, c: Container, x: Context, later: set<string>)
    requires Generous(ok) && Anywhere(ok) && Delivered(pkg)
    ensures Placed(ok, KeptOptions(pkg, c, x), later)
  {
    KeptMembers(pkg, c, x);
    forall o | o in KeptOptions(pkg, c, x)
      ensures ok(o, true)
    {
      ContinuedReturns(o.value, true);
    }
    PlacedAnywhere(ok, KeptOptions(pkg, c, x), later);
  }

  // For such a condition only the pod's own fields count.
  lemma AnywhereFits(ok: Fit, host: Host, pkg: seq<UnitOption>, c: Container, x: Context)
    requires ProperCommand(c) && Generous(ok) && Anywhere(ok) && Delivered(pkg)
    ensures (forall o :: o in Compiled(host, pkg, c, x) ==> ok(o, true))
      <==> FieldsFitFrom(ok, host, c, x, Words(host, pkg, c), 0)
  {
    CompiledFits(ok, host, pkg, c, x);
    KeptFits(ok, pkg, c, x, SectionsAdded(x));
    PlacedAnywhere(ok, Compiled(host, pkg, c, x), {});
  }

  // ---- When the loaded text says exactly what was compiled.

  lemma CompiledComesBack(host: Host, pkg: seq<UnitOption>, c: Container, x: Context)
    requires ProperCommand(c) && Named(pkg)
    ensures Named(Compiled(host, pkg, c, x))
    ensures ComesBack(Compiled(host, pkg, c, x)) <==> RawReturns(host, pkg, c, x)
  {
    CompiledNamed(host, pkg, c, x);
    GenerousFits();
    CompiledFits(Returning(), host, pkg, c, x);
    PlacedReturning(Compiled(host, pkg, c, x));
  }

  lemma LoadedAsMeant(host: Host, pkg: seq<UnitOption>, c: Container, x: Context)
    requires ProperCommand(c) && Named(pkg)
    ensures Parse(Text(host, pkg, c, x)) == Some(TrimAll(Group(Compiled(host, pkg, c, x))))
      <==> RawReturns(host, pkg, c, x)
  {
    CompiledComesBack(host, pkg, c, x);
    RoundTrip(Compiled(host, pkg, c, x));
  }

  // What a package ships hinders that only by a value that ends in a backslash while its section goes on.
  lemma {:induction false} DeliveredPlaced(opts: seq<UnitOption>, later: set<string>)
    requires Delivered(opts)
    ensures Placed(Returning(), opts, later)
      <==> forall i :: 0 <= i < |opts| ==>
             !SwallowsAt(opts, i) && (EndsIn(opts[i].value, '\\') ==> opts[i].section !in later)
  {
    if opts != [] {
      var o := opts[0];
      assert o in opts;
      DeliveredPlaced(opts[1..], later);
      ContinuedReturns(o.value, !HasSection(opts[1..], o.section) && o.section !in later);
      SwallowsFirst(opts);
      assert forall i :: 0 <= i < |opts[1..]| ==> opts[1..][i] == opts[i + 1];
      assert forall i :: 1 <= i < |opts| ==> opts[i] == opts[1..][i - 1];
    }
  }

  lemma KeptReturns(pkg: seq<UnitOption>, c: Container, x: Context)
    requires Delivered(pkg)
    ensures
      var kept := KeptOptions(pkg, c, x);
      Placed(Returning(), kept, SectionsAdded(x))
      <==> forall i :: 0 <= i < |kept| ==>
             !SwallowsAt(kept, i) && (EndsIn(kept[i].value, '\\') ==> kept[i].section !in SectionsAdded(x))
  {
    KeptMembers(pkg, c, x);
    DeliveredPlaced(KeptOptions(pkg, c, x), SectionsAdded(x));
  }

  // ---- When it can be read.

  // Iff the pod's own fields can, each by itself.
  lemma LoadedReadable(host: Host, pkg: seq<UnitOption>, c: Container, x: Context)
    requires ProperCommand(c) && Delivered(pkg)
    ensures Readable(host, pkg, c, x) <==> RawParses(host, pkg, c, x)
  {
    var unit := Compiled(host, pkg, c, x);
    CompiledNamed(host, pkg, c, x);
    ParsesByField(unit);
    GenerousFits();
    AnywhereFits(Parsing(), host, pkg, c, x);
    assert forall o :: o in unit ==> (Parsing()(o, true) <==> ValueParses(o.value));
  }

  // And it always has the section by which GetPod knows its units.
  lemma LoadedMarked(host: Host, pkg: seq<UnitOption>, c: Container, x: Context)
    requires ProperCommand(c) && Named(pkg) && Readable(host, pkg, c, x)
    ensures HasSection(Parse(Text(host, pkg, c, x)).value, KUBERNETES_SECTION)
  {
    CompiledNamed(host, pkg, c, x);
    CompiledMeta(host, pkg, c, x);
    ValuesNeedSection(Compiled(host, pkg, c, x), KUBERNETES_SECTION, "Id");
    SectionsStay(Compiled(host, pkg, c, x), KUBERNETES_SECTION);
  }

  // ---- When it has exactly the values compiled for an option.

  // If the fields of that option stand where they are meant: iff no other field begins one, read where it
  // stands. In any case none is lost.
  lemma LoadedExactly(host: Host, pkg: seq<UnitOption>, c: Container, x: Context, s: string, n: string)
    requires ProperCommand(c) && Named(pkg) && Readable(host, pkg, c, x)
    requires AllInPlace(Compiled(host, pkg, c, x), s, n)
    ensures
      var unit := Compiled(host, pkg, c, x);
      && (LoadedValues(host, pkg, c, x, s, n) == TrimEach(Values(unit, s, n)) <==> BroughtIn(unit, s, n) == 0)
      && |LoadedValues(host, pkg, c, x, s, n)| == |Values(unit, s, n)| + BroughtIn(unit, s, n)
  {
    CompiledNamed(host, pkg, c, x);
    OwnValues(Compiled(host, pkg, c, x), s, n);
  }

  // The loaded text names no EnvironmentFile iff no field brings one.
  lemma LoadedNoEnvironmentFile(host: Host, pkg: seq<UnitOption>, c: Container, x: Context)
    requires ProperCommand(c) && Named(pkg) && Readable(host, pkg, c, x)
    ensures LoadedValues(host, pkg, c, x, "Service", "EnvironmentFile") == []
      <==> BroughtIn(Compiled(host, pkg, c, x), "Service", "EnvironmentFile") == 0
  {
    var unit, s, n := Compiled(host, pkg, c, x), "Service", "EnvironmentFile";
    CompiledNoEnvironmentFile(host, pkg, c, x);
    ValuesNone(unit, s, n);
    InSectionMembers(unit, s);
    NoneInPlace(At(s), InSection(unit, s), s, n);
    LoadedExactly(host, pkg, c, x, s, n);
    assert TrimEach([]) == [];
  }

  // ---- The head of the Service section: package, working directory, protections.

  function Directory(c: Container): UnitOption {
    UnitOption("Service", "WorkingDirectory", c.workingDir)
  }

  function DirectoryOptions(c: Container): seq<UnitOption> {
    if c.workingDir != "" then [Directory(c)] else []
  }

  // Where the working directory leaves the reader. What is written after it stands in that section: it is
  // Service unless the value brings the header of another one.
  function AfterDirectory(c: Container): Mode {
    ModeAfter("Service", DirectoryOptions(c))
  }

  function Protection(k: nat): UnitOption
    requires k < |PROTECT_EDITS|
  {
    UnitOption(PROTECT_EDITS[k].section, PROTECT_EDITS[k].name, PROTECT_EDITS[k].values[0])
  }

  function ProtectionOptions(): seq<UnitOption> {
    seq(|PROTECT_EDITS|, k requires 0 <= k < |PROTECT_EDITS| => Protection(k))
  }

  // What the package keeps of its Service section.
  function ShippedService(pkg: seq<UnitOption>, c: Container, x: Context): seq<UnitOption> {
    InSection(KeptOptions(pkg, c, x), "Service")
  }

  lemma ProtectOneLine(k: nat)
    requires k < |PROTECT_EDITS|
    ensures Protection(k).section == "Service" && OneLine(Protection(k).value)
    ensures PrintableName(Protection(k).name)
  {
    ProtectNamed();
    PathsNamed();
    OutputNamed();
  }

  lemma OneLineReturns(v: string)
    requires OneLine(v)
    ensures Returns(v, false) && Trim(v) == v
  {
    SingleLineReturns(v, false);
    TrimFixed(v);
  }

  lemma {:induction false} WrittenSingles(edits: seq<Edit>)
    requires forall i :: 0 <= i < |edits| ==> !edits[i].Del? && |edits[i].values| == 1
    ensures Written(edits)
      == seq(|edits|, i requires 0 <= i < |edits| => UnitOption(edits[i].section, edits[i].name, edits[i].values[0]))
  {
    if edits != [] {
      var k := |edits| - 1;
      WrittenSingles(edits[..k]);
      assert WrittenBy(edits[k]) == [UnitOption(edits[k].section, edits[k].name, edits[k].values[0])];
    }
  }

  lemma ProtectionsWritten()
    ensures Written(PROTECT_EDITS) == ProtectionOptions()
  {
    WrittenSingles(PROTECT_EDITS);
  }

  lemma DirectoryWritten(c: Container)
    ensures Written(WorkingDirEdits(c)) == DirectoryOptions(c)
  {
    WrittenSingles(WorkingDirEdits(c));
  }

  // The unit, cut in the protections.
  function HeadOptions(pkg: seq<UnitOption>, c: Container, x: Context, k: nat): seq<UnitOption>
    requires k <= |PROTECT_EDITS|
  {
    KeptOptions(pkg, c, x) + (DirectoryOptions(c) + ProtectionOptions()[..k])
  }

  function TailOptions(host: Host, pkg: seq<UnitOption>, c: Container, x: Context, k: nat): seq<UnitOption>
    requires ProperCommand(c) && k <= |PROTECT_EDITS|
  {
    ProtectionOptions()[k..] + WrittenFrom(Groups(host, c, x, Words(host, pkg, c)), 2)
  }

  lemma CompiledCut(host: Host, pkg: seq<UnitOption>, c: Container, x: Context, k: nat)
    requires ProperCommand(c) && k <= |PROTECT_EDITS|
    ensures Compiled(host, pkg, c, x) == HeadOptions(pkg, c, x, k) + TailOptions(host, pkg, c, x, k)
  {
    var words := Words(host, pkg, c);
    var groups := Groups(host, c, x, words);
    CompiledLayout(host, pkg, c, x);
    WrittenSplit(groups, 2);
    GroupIndexed(host, c, x, words, 0);
    GroupIndexed(host, c, x, words, 1);
    DirectoryWritten(c);
    ProtectionsWritten();
    assert WrittenByGroups(groups, 0) == [];
    CutRegroup(KeptOptions(pkg, c, x), DirectoryOptions(c), ProtectionOptions(), WrittenFrom(groups, 2), k);
  }

  lemma CutRegroup(kept: seq<UnitOption>, d: seq<UnitOption>, p: seq<UnitOption>, rest: seq<UnitOption>, k: nat)
    requires k <= |p|
    ensures kept + ([] + d + p + rest) == kept + (d + p[..k]) + (p[k..] + rest)
  {
    assert p == p[..k] + p[k..];
  }

  lemma HeadInService(pkg: seq<UnitOption>, c: Container, x: Context, k: nat)
    requires k <= |PROTECT_EDITS|
    ensures InSection(HeadOptions(pkg, c, x, k), "Service")
         == ShippedService(pkg, c, x) + (DirectoryOptions(c) + ProtectionOptions()[..k])
  {
    var more := DirectoryOptions(c) + ProtectionOptions()[..k];
    InSectionAppend(KeptOptions(pkg, c, x), more, "Service");
    forall o | o in more
      ensures o.section == "Service"
    {
      if o !in DirectoryOptions(c) {
        var i :| 0 <= i < k && ProtectionOptions()[i] == o;
        ProtectOneLine(i);
      }
    }
    InOutPure(more, "Service");
  }

  lemma ShippedServiceDelivered(pkg: seq<UnitOption>, c: Container, x: Context)
    requires Delivered(pkg)
    ensures Delivered(ShippedService(pkg, c, x))
  {
    KeptMembers(pkg, c, x);
    InSectionMembers(KeptOptions(pkg, c, x), "Service");
  }

  // Where the reader is when it comes to a protection.
  predicate StandsAfter(m: Mode, c: Container, k: nat) {
    m.section == AfterDirectory(c).section && (k > 0 ==> m.At?)
  }

  lemma ProtectionsMore(k: nat)
    requires k < |PROTECT_EDITS|
    ensures Lines(ProtectionOptions()[..k + 1]) == Lines(ProtectionOptions()[..k]) + FieldLines(Protection(k))
  {
    var opts := ProtectionOptions();
    assert opts[..k + 1] == opts[..k] + [Protection(k)];
    LinesAppend(opts[..k], [Protection(k)]);
    LinesOne(Protection(k));
  }

  lemma ProtectionCalm(m: Mode, k: nat)
    requires k < |PROTECT_EDITS|
    ensures Feed(m, FieldLines(Protection(k))).Some?
    ensures Feed(m, FieldLines(Protection(k))).value.mode == At(m.section)
  {
    ProtectOneLine(k);
    OneLineReturns(Protection(k).value);
    CalmRead(m, Protection(k));
  }

  lemma FeedMore(m: Mode, a: seq<string>, b: seq<string>)
    requires Feed(m, a).Some? && Feed(Feed(m, a).value.mode, b).Some?
    ensures Feed(m, a + b).Some? && Feed(m, a + b).value.mode == Feed(Feed(m, a).value.mode, b).value.mode
  {
    FeedAppend(m, a, b);
  }

  lemma {:induction false} ProtectionsRead(m: Mode, k: nat)
    requires k <= |PROTECT_EDITS|
    ensures Feed(m, Lines(ProtectionOptions()[..k])).Some?
    ensures Feed(m, Lines(ProtectionOptions()[..k])).value.mode == if k == 0 then m else At(m.section)
  {
    if k == 0 {
      assert ProtectionOptions()[..0] == [];
    } else {
      var before := Lines(ProtectionOptions()[..k - 1]);
      ProtectionsRead(m, k - 1);
      ProtectionsMore(k - 1);
      ProtectionCalm(Feed(m, before).value.mode, k - 1);
      FeedMore(m, before, FieldLines(Protection(k - 1)));
    }
  }

  // What the package ships does not lead out of its section, and whether it leaves something open does not
  // matter after the first line of the working directory.
  lemma DirectoryRead(pkg: seq<UnitOption>, c: Container, x: Context)
    requires Delivered(pkg) && Feed(At("Service"), Lines(DirectoryOptions(c))).Some?
    ensures
      var m := ModeAfter("Service", ShippedService(pkg, c, x));
      var r := Feed(m, Lines(DirectoryOptions(c)));
      && Feed(At("Service"), Lines(ShippedService(pkg, c, x))).Some? && r.Some?
      && r.value.mode.section == AfterDirectory(c).section
      && (r.value.mode.At? <==> if c.workingDir != "" then AfterDirectory(c).At?
                                else !LeavesOpen(At("Service"), ShippedService(pkg, c, x)))
  {
    ShippedServiceDelivered(pkg, c, x);
    ShippedBlock(At("Service"), ShippedService(pkg, c, x));
    if c.workingDir != "" {
      DirectoryNamed();
      LinesOne(Directory(c));
      FieldAlike(ModeAfter("Service", ShippedService(pkg, c, x)), At("Service"), Directory(c));
    }
  }

  lemma HeadRead(pkg: seq<UnitOption>, c: Container, x: Context, k: nat)
    requires Delivered(pkg) && k <= |PROTECT_EDITS| && Feed(At("Service"), Lines(DirectoryOptions(c))).Some?
    ensures
      var m := ModeAfter("Service", InSection(HeadOptions(pkg, c, x, k), "Service"));
      && StandsAfter(m, c, k)
      && (k == 0 ==> (m.At? <==> if c.workingDir != "" then AfterDirectory(c).At?
                                 else !LeavesOpen(At("Service"), ShippedService(pkg, c, x))))
  {
    var shipped, d, p := ShippedService(pkg, c, x), DirectoryOptions(c), ProtectionOptions()[..k];
    HeadInService(pkg, c, x, k);
    DirectoryRead(pkg, c, x);
    LinesAppend(shipped, d + p);
    LinesAppend(d, p);
    FeedAppend(At("Service"), Lines(shipped), Lines(d + p));
    var m := ModeAfter("Service", shipped);
    FeedAppend(m, Lines(d), Lines(p));
    ProtectionsRead(Feed(m, Lines(d)).value.mode, k);
  }

  lemma DirectoryParses(host: Host, pkg: seq<UnitOption>, c: Container, x: Context)
    requires ProperCommand(c) && Delivered(pkg) && Readable(host, pkg, c, x)
    ensures Feed(At("Service"), Lines(DirectoryOptions(c))).Some?
  {
    if c.workingDir != "" {
      LoadedReadable(host, pkg, c, x);
      assert FieldsFit(Parsing(), host, c, x, Words(host, pkg, c), 0);
      DirectoryNamed();
      LinesOne(Directory(c));
      FieldParses(At("Service"), Directory(c));
    }
  }

  // ---- The protections.

  // The k-th is read as what it is: its line stands in the Service section and is not taken in by what goes on
  // before it, which can only happen to the first.
  predicate Arrives(pkg: seq<UnitOption>, c: Container, x: Context, k: nat) {
    && AfterDirectory(c).section == "Service"
    && (k == 0 ==> if c.workingDir != "" then AfterDirectory(c).At?
                   else !LeavesOpen(At("Service"), ShippedService(pkg, c, x)))
  }

  // Values of the same name from elsewhere: what is complete before it, and what comes after.
  function BeforeProtection(host: Host, pkg: seq<UnitOption>, c: Container, x: Context, k: nat): seq<string>
    requires ProperCommand(c) && k < |PROTECT_EDITS|
  {
    var n, head := Protection(k).name, InSection(HeadOptions(pkg, c, x, k), "Service");
    FrontValues(Compiled(host, pkg, c, x), "Service", "Service", n) + DoneValues("Service", head, "Service", n)
    + (if Arrives(pkg, c, x, k) then []
       else FieldValues(ModeAfter("Service", head), Protection(k), "Service", n))
  }

  function AfterProtection(host: Host, pkg: seq<UnitOption>, c: Container, x: Context, k: nat): seq<string>
    requires ProperCommand(c) && k < |PROTECT_EDITS|
  {
    var n := Protection(k).name;
    RestValues(At(AfterDirectory(c).section), InSection(TailOptions(host, pkg, c, x, k + 1), "Service"), "Service", n)
    + BackValues(Compiled(host, pkg, c, x), "Service", "Service", n)
  }

  lemma TailCut(host: Host, pkg: seq<UnitOption>, c: Container, x: Context, k: nat)
    requires ProperCommand(c) && k < |PROTECT_EDITS|
    ensures InSection(TailOptions(host, pkg, c, x, k), "Service")
         == [Protection(k)] + InSection(TailOptions(host, pkg, c, x, k + 1), "Service")
  {
    ProtectOneLine(k);
    assert ProtectionOptions()[k..] == [Protection(k)] + ProtectionOptions()[k + 1..];
    Associates([Protection(k)], ProtectionOptions()[k + 1..],
      WrittenFrom(Groups(host, c, x, Words(host, pkg, c)), 2));
    InSectionAppend([Protection(k)], TailOptions(host, pkg, c, x, k + 1), "Service");
    InOutPure([Protection(k)], "Service");
  }

  lemma ProtectionRead(pkg: seq<UnitOption>, c: Container, x: Context, k: nat)
    requires Delivered(pkg) && k < |PROTECT_EDITS| && Feed(At("Service"), Lines(DirectoryOptions(c))).Some?
    ensures
      var m := ModeAfter("Service", InSection(HeadOptions(pkg, c, x, k), "Service"));
      && Feed(m, FieldLines(Protection(k))).Some?
      && Feed(m, FieldLines(Protection(k))).value.mode == At(AfterDirectory(c).section)
      && (Arrives(pkg, c, x, k)
          ==> FieldValues(m, Protection(k), "Service", Protection(k).name) == [Protection(k).value])
  {
    var m := ModeAfter("Service", InSection(HeadOptions(pkg, c, x, k), "Service"));
    HeadRead(pkg, c, x, k);
    ProtectionCalm(m, k);
    if Arrives(pkg, c, x, k) {
      ProtectOneLine(k);
      OneLineReturns(Protection(k).value);
      CalmAt("Service", Protection(k));
      ValuesOne(Protection(k), "Service", Protection(k).name);
    }
  }

  lemma ProtectionAround(host: Host, pkg: seq<UnitOption>, c: Container, x: Context, k: nat)
    requires ProperCommand(c) && Delivered(pkg) && k < |PROTECT_EDITS| && Readable(host, pkg, c, x)
    ensures LoadedValues(host, pkg, c, x, "Service", Protection(k).name)
         == BeforeProtection(host, pkg, c, x, k)
            + (if Arrives(pkg, c, x, k) then [Protection(k).value] else [])
            + AfterProtection(host, pkg, c, x, k)
  {
    var head, tail := HeadOptions(pkg, c, x, k), TailOptions(host, pkg, c, x, k);
    var s, n, m := "Service", Protection(k).name, ModeAfter("Service", InSection(head, "Service"));
    DirectoryParses(host, pkg, c, x);
    CompiledNamed(host, pkg, c, x);
    CompiledCut(host, pkg, c, x, k);
    AroundCut(head, tail, s, s, n);
    TailCut(host, pkg, c, x, k);
    ProtectionRead(pkg, c, x, k);
    RestAround(m, Protection(k), InSection(TailOptions(host, pkg, c, x, k + 1), s), s, n);
    Regrouped(FrontValues(head + tail, s, s, n), DoneValues(s, InSection(head, s), s, n),
      FieldValues(m, Protection(k), s, n),
      RestValues(At(AfterDirectory(c).section), InSection(TailOptions(host, pkg, c, x, k + 1), s), s, n),
      BackValues(head + tail, s, s, n));
  }

  lemma Regrouped(a: seq<string>, b: seq<string>, v: seq<string>, d: seq<string>, e: seq<string>)
    ensures a + b + ((v + d) + e) == (a + b + []) + v + (d + e)
    ensures a + b + ((v + d) + e) == (a + b + v) + [] + (d + e)
  {
  }

  // The value that is the last one, which is the one systemd goes by.
  predicate LastIs(values: seq<string>, v: string) {
    values != [] && values[|values| - 1] == v
  }

  // v holds if the last line after it says so, or if there is none and it arrives, or if it does not and the
  // last line before it says so; and it is the only value iff it arrives and nothing else brings one, or
  // others make up for it.
  predicate Holds(loaded: seq<string>, v: string, before: seq<string>, arrives: bool, after: seq<string>) {
    && (LastIs(loaded, v) <==> if after != [] then LastIs(after, v) else arrives || LastIs(before, v))
    && (loaded == [v] <==> if arrives then before == [] && after == [] else before + after == [v])
  }

  // The protections of the loaded text, whatever the raw fields hold.
  lemma LoadedProtections(host: Host, pkg: seq<UnitOption>, c: Container, x: Context, k: nat)
    requires ProperCommand(c) && Delivered(pkg) && k < |PROTECT_EDITS| && Readable(host, pkg, c, x)
    ensures Holds(LoadedValues(host, pkg, c, x, "Service", Protection(k).name), Protection(k).value,
                  BeforeProtection(host, pkg, c, x, k), Arrives(pkg, c, x, k), AfterProtection(host, pkg, c, x, k))
  {
    ProtectionAround(host, pkg, c, x, k);
    LastOfThree(BeforeProtection(host, pkg, c, x, k), Arrives(pkg, c, x, k), Protection(k).value,
      AfterProtection(host, pkg, c, x, k));
  }

  lemma LastOfThree(a: seq<string>, there: bool, v: string, b: seq<string>)
    ensures Holds(a + (if there then [v] else []) + b, v, a, there, b)
  {
    if there {
      assert |a + [v] + b| == |a| + 1 + |b|;
      assert a == [] && b == [] ==> a + [v] + b == [v];
    } else {
      assert a + [] + b == a + b;
    }
    if b == [] {
      assert a + (if there then [v] else []) + b == a + (if there then [v] else []);
    }
  }

  // ---- What packages deliver.

  lemma SynthDelivered()
    ensures Delivered(SynthOptions())
  {
    forall k | 0 <= k < 4
      ensures PrintableSection(SynthOption(k).section) && PrintableName(SynthOption(k).name)
      ensures Continued(SynthOption(k).value) && Tight(SynthOption(k).value)
    {
      SynthNamed(k);
      SynthOneLine(k);
      FlowsLine(' ', SynthOption(k).value);
    }
  }

  lemma SynthNamed(k: nat)
    ensures PrintableSection(SynthOption(k).section) && PrintableName(SynthOption(k).name)
  {
    SectionsNamed();
    ExecNamed();
    SynthNames();
    assert PrintableSection("Install");
  }

  lemma SynthNames()
    ensures PrintableName("Description") && PrintableName("Documentation") && PrintableName("WantedBy")
  {
  }

  lemma SynthDocumentation()
    ensures OneLine("man:systemk(8)")
  {
  }

  lemma SynthTarget()
    ensures OneLine("multi-user.target")
  {
  }

  lemma SynthOneLine(k: nat)
    ensures OneLine(SynthOption(k).value)
  {
    SynthDocumentation();
    SynthTarget();
    assert OneLine("systemk") && OneLine("");
  }

  lemma PackageDelivered(host: Host, image: string)
    ensures PackageOptions(host, image).Some? ==> Delivered(PackageOptions(host, image).value)
  {
    SynthDelivered();
    if image in host.unitTexts {
      ParsedDelivered(host.unitTexts[image]);
    }
  }

  // ---- The user.

  function UserOption(x: Context): UnitOption {
    UnitOption("Service", "User", x.ids.uid)
  }

  // What stands after it.
  function UserTail(host: Host, pkg: seq<UnitOption>, c: Container, x: Context): seq<UnitOption>
    requires ProperCommand(c)
  {
    [UnitOption("Service", "Group", x.ids.gid)] + WrittenFrom(Groups(host, c, x, Words(host, pkg, c)), 3)
  }

  lemma UserCut(host: Host, pkg: seq<UnitOption>, c: Container, x: Context)
    requires ProperCommand(c) && x.ids.uid != ""
    ensures TailOptions(host, pkg, c, x, |PROTECT_EDITS|) == [UserOption(x)] + UserTail(host, pkg, c, x)
  {
    var groups, group := Groups(host, c, x, Words(host, pkg, c)), UnitOption("Service", "Group", x.ids.gid);
    GroupIndexed(host, c, x, Words(host, pkg, c), 2);
    WrittenSingles(UserEdits(x.ids));
    assert Written(UserEdits(x.ids)) == [UserOption(x)] + [group];
    Associates([UserOption(x)], [group], WrittenFrom(groups, 3));
    NoProtectionsLeft(WrittenFrom(groups, 2));
  }

  lemma NoProtectionsLeft(rest: seq<UnitOption>)
    ensures ProtectionOptions()[|PROTECT_EDITS|..] + rest == rest
  {
  }

  // The User lines of the loaded text in three parts: those that are meant are the uid that was carried, if it
  // arrives in the Service section, or else those the package's own lines are read as; before and after them
  // is what other fields bring.
  function UsersBefore(host: Host, pkg: seq<UnitOption>, c: Container, x: Context): seq<string>
    requires ProperCommand(c)
  {
    var head := InSection(HeadOptions(pkg, c, x, |PROTECT_EDITS|), "Service");
    FrontValues(Compiled(host, pkg, c, x), "Service", "Service", "User")
    + (if x.ids.uid != "" then DoneValues("Service", head, "Service", "User") else [])
  }

  function UsersMeant(pkg: seq<UnitOption>, c: Container, x: Context): seq<string> {
    if x.ids.uid != "" then if AfterDirectory(c).section == "Service" then [x.ids.uid] else []
    else DoneValues("Service", ShippedService(pkg, c, x), "Service", "User")
  }

  function UsersAfter(host: Host, pkg: seq<UnitOption>, c: Container, x: Context): seq<string>
    requires ProperCommand(c)
  {
    (if x.ids.uid != "" then
       RestValues(At(AfterDirectory(c).section), InSection(UserTail(host, pkg, c, x), "Service"), "Service", "User")
     else
       RestValues(ModeAfter("Service", ShippedService(pkg, c, x)),
                  InSection(DirectoryOptions(c) + TailOptions(host, pkg, c, x, 0), "Service"), "Service", "User"))
    + BackValues(Compiled(host, pkg, c, x), "Service", "Service", "User")
  }

  lemma UserRead(x: Context, section: string)
    requires OneLine(x.ids.uid)
    ensures Feed(At(section), FieldLines(UserOption(x))).Some?
    ensures Feed(At(section), FieldLines(UserOption(x))).value.mode == At(section)
    ensures FieldValues(At(section), UserOption(x), "Service", "User")
      == if section == "Service" then [x.ids.uid] else []
  {
    UserNamed();
    OneLineReturns(x.ids.uid);
    CalmAt(section, UserOption(x));
    ValuesOne(UnitOption(section, "User", x.ids.uid), "Service", "User");
  }

  lemma CarriedUsers(host: Host, pkg: seq<UnitOption>, c: Container, x: Context)
    requires ProperCommand(c) && Delivered(pkg) && Readable(host, pkg, c, x)
    requires x.ids.uid != "" && OneLine(x.ids.uid)
    ensures LoadedValues(host, pkg, c, x, "Service", "User")
         == UsersBefore(host, pkg, c, x) + UsersMeant(pkg, c, x) + UsersAfter(host, pkg, c, x)
  {
    var k, s, n, cur := |PROTECT_EDITS|, "Service", "User", AfterDirectory(c).section;
    var head, tail := HeadOptions(pkg, c, x, k), TailOptions(host, pkg, c, x, k);
    var rest := InSection(UserTail(host, pkg, c, x), s);
    DirectoryParses(host, pkg, c, x);
    CompiledNamed(host, pkg, c, x);
    CompiledCut(host, pkg, c, x, k);
    AroundCut(head, tail, s, s, n);
    HeadRead(pkg, c, x, k);
    UserCut(host, pkg, c, x);
    InSectionAppend([UserOption(x)], UserTail(host, pkg, c, x), s);
    InOutPure([UserOption(x)], s);
    UserRead(x, cur);
    RestAround(At(cur), UserOption(x), rest, s, n);
    FourInARow(FrontValues(head + tail, s, s, n) + DoneValues(s, InSection(head, s), s, n),
      UsersMeant(pkg, c, x), RestValues(At(cur), rest, s, n), BackValues(head + tail, s, s, n));
  }

  lemma PackageUsers(host: Host, pkg: seq<UnitOption>, c: Container, x: Context)
    requires ProperCommand(c) && Delivered(pkg) && Readable(host, pkg, c, x) && x.ids.uid == ""
    ensures LoadedValues(host, pkg, c, x, "Service", "User")
         == UsersBefore(host, pkg, c, x) + UsersMeant(pkg, c, x) + UsersAfter(host, pkg, c, x)
  {
    var kept, rest := KeptOptions(pkg, c, x), DirectoryOptions(c) + TailOptions(host, pkg, c, x, 0);
    CompiledNamed(host, pkg, c, x);
    CompiledCut(host, pkg, c, x, 0);
    NoProtectionsYet(DirectoryOptions(c));
    Associates(kept, DirectoryOptions(c), TailOptions(host, pkg, c, x, 0));
    AroundCut(kept, rest, "Service", "Service", "User");
    var front := FrontValues(kept + rest, "Service", "Service", "User");
    assert front + [] == front;
  }

  lemma NoProtectionsYet(front: seq<UnitOption>)
    ensures front + ProtectionOptions()[..0] == front
  {
  }

  lemma LastDecides(a: seq<string>, b: seq<string>, y: seq<string>)
    ensures RunsAsRoot(a + b + y) <==> RunsAsRoot(if y != [] then y else if b != [] then b else a)
  {
    if y == [] {
      assert a + b + y == a + b;
      if b == [] {
        assert a + b == a;
      }
    }
  }

  // Whose line is the last, whatever the raw fields hold.
  lemma LoadedRoot(host: Host, pkg: seq<UnitOption>, c: Container, x: Context)
    requires ProperCommand(c) && Delivered(pkg) && OneLine(x.ids.uid) && Readable(host, pkg, c, x)
    ensures
      var before, meant, after := UsersBefore(host, pkg, c, x), UsersMeant(pkg, c, x), UsersAfter(host, pkg, c, x);
      && LoadedValues(host, pkg, c, x, "Service", "User") == before + meant + after
      && (RunsAsRoot(LoadedValues(host, pkg, c, x, "Service", "User"))
          <==> RunsAsRoot(if after != [] then after else if meant != [] then meant else before))
  {
    if x.ids.uid != "" {
      CarriedUsers(host, pkg, c, x);
    } else {
      PackageUsers(host, pkg, c, x);
    }
    LastDecides(UsersBefore(host, pkg, c, x), UsersMeant(pkg, c, x), UsersAfter(host, pkg, c, x));
  }

  // No Service value of the package goes on into the next one.
  predicate Unbroken(pkg: seq<UnitOption>) {
    forall o :: o in pkg && o.section == "Service" ==> !EndsIn(o.value, '\\')
  }

  lemma {:induction false} ValuesFrom(opts: seq<UnitOption>, s: string, n: string)
    ensures forall v :: v in Values(opts, s, n) ==> exists o :: o in opts && o.value == v
  {
    if opts != [] {
      ValuesFrom(opts[1..], s, n);
      assert opts == [opts[0]] + opts[1..];
      forall v | v in Values(opts, s, n)
        ensures exists o :: o in opts && o.value == v
      {
        if v in Values(opts[1..], s, n) {
          var o :| o in opts[1..] && o.value == v;
          assert o in opts;
        } else {
          assert opts[0] in opts && opts[0].value == v;
        }
      }
    }
  }

  lemma TightValues(pkg: seq<UnitOption>, s: string, n: string)
    requires Delivered(pkg)
    ensures TrimEach(Values(pkg, s, n)) == Values(pkg, s, n)
  {
    ValuesFrom(pkg, s, n);
    var values := Values(pkg, s, n);
    forall i | 0 <= i < |values|
      ensures Trim(values[i]) == values[i]
    {
      assert values[i] in values;
      TrimFixed(values[i]);
    }
  }

  // Then what the package's lines are read as is what it says.
  lemma ShippedUsers(pkg: seq<UnitOption>, c: Container, x: Context)
    requires Delivered(pkg) && Unbroken(pkg) && x.ids.uid == ""
    ensures UsersMeant(pkg, c, x) == Values(pkg, "Service", "User")
  {
    var kept, shipped, s, n := KeptOptions(pkg, c, x), ShippedService(pkg, c, x), "Service", "User";
    ShippedServiceDelivered(pkg, c, x);
    KeptMembers(pkg, c, x);
    InSectionMembers(kept, s);
    forall o | o in shipped
      ensures Returns(o.value, false)
    {
      ContinuedReturns(o.value, false);
    }
    CalmBlock(s, shipped);
    assert Moved(shipped, s) == shipped;
    ValuesOfTrimAll(shipped, s, n);
    ValuesInOut(kept, s, s, n);
    KeptValues(pkg, c, x, s, n);
    TightValues(pkg, s, n);
  }

  // ---- Root, in the units of a pod.

  function ContextOf(host: Host, pod: Pod, vol: map<string, string>, ids: Ids, i: nat): Context
    requires Succeeds(host, pod, ids, i + 1)
  {
    ContextAt(pod, vol, i, IdsAfter(host, AllContainers(pod), ids, i + 1).value)
  }

  // The raw fields of unit i.
  predicate RawFitAt(ok: Fit, host: Host, pod: Pod, vol: map<string, string>, ids: Ids, i: nat)
    requires ProperPod(pod) && Succeeds(host, pod, ids, i + 1)
  {
    RawFit(ok, host, PackageOf(host, pod, ids, i), AllContainers(pod)[i], ContextOf(host, pod, vol, ids, i))
  }

  function UsersAt(host: Host, pod: Pod, vol: map<string, string>, ids: Ids, i: nat): Option<seq<string>>
    requires ProperPod(pod) && Succeeds(host, pod, ids, i + 1)
  {
    match Parse(Print(UnitAt(host, pod, vol, ids, i)))
    case None => None
    case Some(opts) => Some(Values(opts, "Service", "User"))
  }

  function BeforeAt(host: Host, pod: Pod, vol: map<string, string>, ids: Ids, i: nat): seq<string>
    requires ProperPod(pod) && Succeeds(host, pod, ids, i + 1)
  {
    UsersBefore(host, PackageOf(host, pod, ids, i), AllContainers(pod)[i], ContextOf(host, pod, vol, ids, i))
  }

  function AfterAt(host: Host, pod: Pod, vol: map<string, string>, ids: Ids, i: nat): seq<string>
    requires ProperPod(pod) && Succeeds(host, pod, ids, i + 1)
  {
    UsersAfter(host, PackageOf(host, pod, ids, i), AllContainers(pod)[i], ContextOf(host, pod, vol, ids, i))
  }

  // The users that the package's own lines are read as, if no uid was carried.
  function ShippedAt(host: Host, pod: Pod, vol: map<string, string>, ids: Ids, i: nat): seq<string>
    requires ProperPod(pod) && Succeeds(host, pod, ids, i + 1)
  {
    UsersMeant(PackageOf(host, pod, ids, i), AllContainers(pod)[i], ContextOf(host, pod, vol, ids, i))
  }

  // The uid that was carried to unit i.
  function UidAt(host: Host, pod: Pod, ids: Ids, i: nat): string
    requires Succeeds(host, pod, ids, i + 1)
  {
    IdsAfter(host, AllContainers(pod), ids, i + 1).value.uid
  }

  // The last User line that a field brings after the one that is meant says so; or there is none, and if a uid
  // was carried, the working directory has led away from the Service section and the lines before it name no
  // other user; or if none was carried, the package's own users say so.
  predicate SaysRoot(before: seq<string>, uid: string, arrives: bool, shipped: seq<string>, after: seq<string>) {
    if after != [] then RunsAsRoot(after)
    else if uid != "" then !arrives && RunsAsRoot(before)
    else RunsAsRoot(if shipped != [] then shipped else before)
  }

  predicate SaysRootAt(host: Host, pod: Pod, vol: map<string, string>, ids: Ids, i: nat)
    requires ProperPod(pod) && Succeeds(host, pod, ids, i + 1)
  {
    SaysRoot(BeforeAt(host, pod, vol, ids, i), UidAt(host, pod, ids, i),
      AfterDirectory(AllContainers(pod)[i]).section == "Service", ShippedAt(host, pod, vol, ids, i),
      AfterAt(host, pod, vol, ids, i))
  }

  // With an override uid, that is exactly when the unit that is loaded runs as root, whatever the raw fields
  // hold, if it can be read at all.
  lemma RootSlips(host: Host, pod: Pod, vol: map<string, string>, ids: Ids, i: nat)
    requires ProperPod(pod) && Succeeds(host, pod, ids, i + 1)
    requires Consistent(host.accounts) && host.overrideRootUID > 0
    requires Resolve(pod.securityContext, host.accounts, host.overrideRootUID) == Some(ids)
    requires UsersAt(host, pod, vol, ids, i).Some?
    ensures RunsAsRoot(UsersAt(host, pod, vol, ids, i).value) <==> SaysRootAt(host, pod, vol, ids, i)
  {
    var c, x := AllContainers(pod)[i], ContextOf(host, pod, vol, ids, i);
    UidNotRoot(host, pod, ids, i);
    PackageDelivered(host, Clean(host, c.image));
    LoadedRoot(host, PackageOf(host, pod, ids, i), c, x);
    MeantRoot(BeforeAt(host, pod, vol, ids, i), UidAt(host, pod, ids, i), AfterDirectory(c).section == "Service",
      ShippedAt(host, pod, vol, ids, i), AfterAt(host, pod, vol, ids, i));
  }

  lemma MeantRoot(before: seq<string>, uid: string, arrives: bool, meant: seq<string>, after: seq<string>)
    requires uid != "" ==> meant == (if arrives then [uid] else []) && !RootName(uid)
    ensures RunsAsRoot(if after != [] then after else if meant != [] then meant else before)
      <==> SaysRoot(before, uid, arrives, meant, after)
  {
  }

  lemma UidNotRoot(host: Host, pod: Pod, ids: Ids, i: nat)
    requires Succeeds(host, pod, ids, i + 1) && Consistent(host.accounts) && host.overrideRootUID > 0
    requires Resolve(pod.securityContext, host.accounts, host.overrideRootUID) == Some(ids)
    ensures !RootName(UidAt(host, pod, ids, i)) && OneLine(UidAt(host, pod, ids, i))
  {
    ResolvedNotRoot(pod.securityContext, host.accounts, host.overrideRootUID);
    CarriedNotRoot(host, AllContainers(pod), ids, i + 1);
  }

  // No uid is carried exactly when none was before and the package's first User and Group look harmless; and
  // its users are those it names unless one of its Service values goes on into the next.
  lemma NothingCarried(host: Host, pod: Pod, vol: map<string, string>, ids: Ids, i: nat)
    requires ProperPod(pod) && Succeeds(host, pod, ids, i + 1)
    requires Consistent(host.accounts) && host.overrideRootUID > 0
    ensures
      var pkg := PackageOf(host, pod, ids, i);
      var user, group := Values(pkg, "Service", "User"), Values(pkg, "Service", "Group");
      && (UidAt(host, pod, ids, i) == ""
          <==> IdsAfter(host, AllContainers(pod), ids, i).value.uid == "" && !LooksRoot(user) && !LooksRoot(group))
      && (UidAt(host, pod, ids, i) == "" && Unbroken(pkg) ==> ShippedAt(host, pod, vol, ids, i) == user)
  {
    var c, x := AllContainers(pod)[i], ContextOf(host, pod, vol, ids, i);
    FormatIntNotRoot(host.overrideRootUID);
    PackageDelivered(host, Clean(host, c.image));
    if UidAt(host, pod, ids, i) == "" && Unbroken(PackageOf(host, pod, ids, i)) {
      ShippedUsers(PackageOf(host, pod, ids, i), c, x);
    }
  }

  // One User option at most, and not an empty one.
  predicate PlainUser(user: seq<string>) {
    |user| <= 1 && "" !in user
  }

  // So with such a User in each package it takes a User line that another field brings after the one that is
  // meant, or a working directory that leads the carried uid away, or a package value that goes on into the
  // package's User.
  lemma NeverRoot(host: Host, pod: Pod, vol: map<string, string>, ids: Ids, i: nat)
    requires ProperPod(pod) && Succeeds(host, pod, ids, i + 1)
    requires Consistent(host.accounts) && host.overrideRootUID > 0
    requires Resolve(pod.securityContext, host.accounts, host.overrideRootUID) == Some(ids)
    requires UsersAt(host, pod, vol, ids, i).Some?
    requires PlainUser(Values(PackageOf(host, pod, ids, i), "Service", "User"))
    ensures RunsAsRoot(UsersAt(host, pod, vol, ids, i).value)
      <==> && SaysRootAt(host, pod, vol, ids, i)
           && (|| AfterAt(host, pod, vol, ids, i) != []
               || (UidAt(host, pod, ids, i) != "" && AfterDirectory(AllContainers(pod)[i]).section != "Service")
               || (UidAt(host, pod, ids, i) == "" && !Unbroken(PackageOf(host, pod, ids, i))))
  {
    RootSlips(host, pod, vol, ids, i);
    NothingCarried(host, pod, vol, ids, i);
    PlainUserLooks(Values(PackageOf(host, pod, ids, i), "Service", "User"));
  }

  lemma PlainUserLooks(user: seq<string>)
    requires PlainUser(user)
    ensures RunsAsRoot(user) <==> LooksRoot(user)
  {
  }
}
