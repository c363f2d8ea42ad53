// What raw fields with line breaks or trailing backslashes do to the unit that is loaded: whole families of
// inputs on which the text is not what was compiled.

module Slips {
  import opened Strings
  import opened Kube
  import opened UnitFile
  import opened UnitText
  import opened Shipped
  import opened ByField
  import opened Strays
  import opened Users
  import opened CommandLine
  import opened Compile
  import opened Layout
  import opened Loaded

  // ---- The unit around what one group writes.

  lemma {:induction false} WrittenSame(a: seq<seq<Edit>>, b: seq<seq<Edit>>, n: nat)
    requires n <= |a| && n <= |b| && forall i :: 0 <= i < n ==> a[i] == b[i]
    ensures WrittenByGroups(a, n) == WrittenByGroups(b, n)
  {
    if n > 0 {
      WrittenSame(a, b, n - 1);
    }
  }

  lemma {:induction false} WrittenFromSame(a: seq<seq<Edit>>, b: seq<seq<Edit>>, g: nat)
    requires g <= |a| == |b| && forall i :: g <= i < |a| ==> a[i] == b[i]
    ensures WrittenFrom(a, g) == WrittenFrom(b, g)
    decreases |a| - g
  {
    if g < |a| {
      WrittenFromSame(a, b, g + 1);
    }
  }

  lemma SectionsCons(o: UnitOption, rest: seq<UnitOption>)
    ensures SectionsOf([o] + rest) == {o.section} + SectionsOf(rest)
  {
    assert o in [o] + rest;
    assert forall p :: p in [o] + rest <==> p == o || p in rest;
  }

  lemma CutGroup(a: seq<seq<Edit>>, g: nat)
    requires g < |a|
    ensures WrittenByGroups(a, |a|) == WrittenByGroups(a, g) + (Written(a[g]) + WrittenFrom(a, g + 1))
  {
    WrittenSplit(a, g);
  }

  ghost predicate SameBut(a: seq<seq<Edit>>, b: seq<seq<Edit>>, g: nat) {
    |a| == |b| && forall i :: 0 <= i < |a| && i != g ==> a[i] == b[i]
  }

  // Groups that differ in one write the same around it.
  lemma AroundGroup(a: seq<seq<Edit>>, b: seq<seq<Edit>>, g: nat)
    requires g < |a| && SameBut(a, b, g)
    ensures WrittenByGroups(b, |b|) == WrittenByGroups(a, g) + (Written(b[g]) + WrittenFrom(a, g + 1))
  {
    CutGroup(b, g);
    WrittenSame(a, b, g);
    WrittenFromSame(a, b, g + 1);
  }

  // The unit with other groups of edits returns iff its fields do.
  lemma WrittenComesBack(host: Host, pkg: seq<UnitOption>, c: Container, x: Context, words: seq<string>)
    requires Placed(Returning(), KeptOptions(pkg, c, x), SectionsAdded(x))
    requires FieldsFitFrom(Returning(), host, c, x, words, 0)
    ensures ComesBack(KeptOptions(pkg, c, x) + WrittenOptions(host, c, x, words))
  {
    var groups := Groups(host, c, x, words);
    WrittenSplit(groups, 0);
    assert [] + WrittenFrom(groups, 0) == WrittenFrom(groups, 0);
    PlacedAppend(Returning(), KeptOptions(pkg, c, x), WrittenFrom(groups, 0), {});
    SectionsAddedAre(host, c, x, words);
    assert SectionsAdded(x) + {} == SectionsAdded(x);
    GenerousFits();
    FieldsFrom(Returning(), host, c, x, words, 0);
    PlacedReturning(KeptOptions(pkg, c, x) + WrittenOptions(host, c, x, words));
  }

  // ---- A command with a line break brings a line of its own into the unit.

  const EXEC: nat := 6

  // From group g on, every raw field but the command returns.
  predicate OthersFrom(host: Host, c: Container, x: Context, words: seq<string>, g: nat) {
    forall h :: g <= h < UNTOUCHED && h != EXEC ==> FieldsFit(Returning(), host, c, x, words, h)
  }

  // Every raw field but the command returns.
  predicate OthersReturn(host: Host, pkg: seq<UnitOption>, c: Container, x: Context)
    requires ProperCommand(c)
  {
    && Placed(Returning(), KeptOptions(pkg, c, x), SectionsAdded(x))
    && OthersFrom(host, c, x, Words(host, pkg, c), 0)
  }

  function Exec(words: seq<string>): UnitOption {
    UnitOption("Service", "ExecStart", Join(words, " "))
  }

  lemma ExecWritten(words: seq<string>)
    ensures Written(ExecEdits(words)) == [Exec(words)]
  {
    WrittenSingles(ExecEdits(words));
  }

  function BeforeExec(host: Host, pkg: seq<UnitOption>, c: Container, x: Context, words: seq<string>): seq<UnitOption> {
    KeptOptions(pkg, c, x) + WrittenByGroups(Groups(host, c, x, words), EXEC)
  }

  function AfterExec(host: Host, c: Container, x: Context, words: seq<string>): seq<UnitOption> {
    WrittenFrom(Groups(host, c, x, words), EXEC + 1)
  }

  lemma SameButExec(host: Host, c: Container, x: Context, words: seq<string>, other: seq<string>)
    ensures SameBut(Groups(host, c, x, words), Groups(host, c, x, other), EXEC)
  {
    forall g | 0 <= g < UNTOUCHED && g != EXEC
      ensures Groups(host, c, x, words)[g] == Groups(host, c, x, other)[g]
    {
      GroupIndexed(host, c, x, words, g);
      GroupIndexed(host, c, x, other, g);
    }
  }

  lemma ExecAround(host: Host, pkg: seq<UnitOption>, c: Container, x: Context, words: seq<string>, other: seq<string>)
    ensures KeptOptions(pkg, c, x) + WrittenOptions(host, c, x, other)
         == BeforeExec(host, pkg, c, x, words) + [Exec(other)] + AfterExec(host, c, x, words)
  {
    var a, b := Groups(host, c, x, words), Groups(host, c, x, other);
    SameButExec(host, c, x, words, other);
    AroundGroup(a, b, EXEC);
    GroupIndexed(host, c, x, other, EXEC);
    ExecWritten(other);
    Rejoin(KeptOptions(pkg, c, x), WrittenByGroups(a, EXEC), [Exec(other)], WrittenFrom(a, EXEC + 1));
  }

  lemma Rejoin<T>(a: seq<T>, b: seq<T>, c: seq<T>, d: seq<T>)
    ensures a + (b + (c + d)) == a + b + c + d
  {
  }

  // With a harmless command in its place the unit comes back.
  lemma SaneExec(host: Host, pkg: seq<UnitOption>, c: Container, x: Context)
    requires ProperCommand(c) && OthersReturn(host, pkg, c, x)
    ensures
      var words := Words(host, pkg, c);
      ComesBack(BeforeExec(host, pkg, c, x, words) + [Exec([])] + AfterExec(host, c, x, words))
  {
    var words := Words(host, pkg, c);
    forall g | 0 <= g < UNTOUCHED
      ensures FieldsFit(Returning(), host, c, x, [], g)
    {
      if g == EXEC {
        SingleLineReturns("", false);
      } else {
        assert FieldsFit(Returning(), host, c, x, words, g);
      }
    }
    WrittenComesBack(host, pkg, c, x, []);
    ExecAround(host, pkg, c, x, words, []);
  }

  lemma CompiledExecAround(host: Host, pkg: seq<UnitOption>, c: Container, x: Context)
    requires ProperCommand(c)
    ensures
      var words := Words(host, pkg, c);
      Compiled(host, pkg, c, x)
      == BeforeExec(host, pkg, c, x, words) + [Exec(words)] + AfterExec(host, c, x, words)
  {
    CompiledLayout(host, pkg, c, x);
    ExecAround(host, pkg, c, x, Words(host, pkg, c), Words(host, pkg, c));
  }

  lemma NoUserFrom(host: Host, c: Container, x: Context, words: seq<string>, g: nat)
    requires 2 < g <= UNTOUCHED
    ensures Values(WrittenFrom(Groups(host, c, x, words), g), "Service", "User") == []
  {
    GroupsOwned(host, c, x, words);
    OwnersFrom(Groups(host, c, x, words), g);
    ValuesNone(WrittenFrom(Groups(host, c, x, words), g), "Service", "User");
  }

  lemma UsersAroundExec(host: Host, pkg: seq<UnitOption>, c: Container, x: Context)
    requires ProperCommand(c)
    ensures
      var words := Words(host, pkg, c);
      && Values(BeforeExec(host, pkg, c, x, words), "Service", "User")
        == FinalUser(x.ids, Values(pkg, "Service", "User"))
      && Values(AfterExec(host, c, x, words), "Service", "User") == []
  {
    var words, s, n := Words(host, pkg, c), "Service", "User";
    CompiledExecAround(host, pkg, c, x);
    CompiledUser(host, pkg, c, x);
    NoUserFrom(host, c, x, words, EXEC + 1);
    ValuesAppend(BeforeExec(host, pkg, c, x, words) + [Exec(words)], AfterExec(host, c, x, words), s, n);
    ValuesAppend(BeforeExec(host, pkg, c, x, words), [Exec(words)], s, n);
    ValuesOne(Exec(words), s, n);
    NothingAdded(Values(BeforeExec(host, pkg, c, x, words), s, n));
  }

  lemma NothingAdded<T>(a: seq<T>)
    ensures a + [] + [] == a
  {
  }

  // Whatever uid was carried, the unit runs as the user on that line.
  lemma InjectedUser(host: Host, pkg: seq<UnitOption>, c: Container, x: Context, cmd: string, w: string)
    requires ProperCommand(c) && Named(pkg) && OthersReturn(host, pkg, c, x)
    requires Join(Words(host, pkg, c), " ") == cmd + "\n" + ("User" + "=" + w)
    requires '\n' !in cmd && !EndsIn(cmd, '\\') && '\n' !in w && !EndsIn(w, '\\')
    ensures Readable(host, pkg, c, x)
    ensures LoadedValues(host, pkg, c, x, "Service", "User")
         == TrimEach(FinalUser(x.ids, Values(pkg, "Service", "User"))) + [Trim(w)]
    ensures RunsAsRoot(LoadedValues(host, pkg, c, x, "Service", "User")) <==> Trim(w) == "" || RootName(Trim(w))
  {
    var words := Words(host, pkg, c);
    var a, o, b := BeforeExec(host, pkg, c, x, words), Exec(words), AfterExec(host, c, x, words);
    var out := [o.(value := Trim(cmd))] + [UnitOption("Service", "User", Trim(w))];
    CompiledExecAround(host, pkg, c, x);
    CompiledNamed(host, pkg, c, x);
    SaneExec(host, pkg, c, x);
    UserNamed();
    ExecNamed();
    SectionsNamed();
    SettingReads(o, cmd, "User", w);
    OneOddOwn(a, o, Exec([]), b, out, "Service", "User");
    UsersAroundExec(host, pkg, c, x);
    OutUsers(o.(value := Trim(cmd)), Trim(w));
    LastUser(TrimEach(FinalUser(x.ids, Values(pkg, "Service", "User"))), Trim(w));
  }

  lemma OutUsers(o: UnitOption, w: string)
    requires o.name != "User"
    ensures Values([o] + [UnitOption("Service", "User", w)], "Service", "User") == [w]
    ensures TrimEach([]) == []
  {
    ValuesAppend([o], [UnitOption("Service", "User", w)], "Service", "User");
    ValuesOne(o, "Service", "User");
    ValuesOne(UnitOption("Service", "User", w), "Service", "User");
  }

  lemma LastUser(users: seq<string>, w: string)
    ensures RunsAsRoot(users + [w]) <==> w == "" || RootName(w)
    ensures users + [w] + [] == users + [w]
  {
  }

  const SHELL_AS_ROOT := "/bin/sh\nUser=root"

  // For example this one command.
  lemma ShellAsRoot(host: Host, pkg: seq<UnitOption>, c: Container, x: Context)
    requires c.command == Some([SHELL_AS_ROOT]) && c.args == None
    requires |UnitWords(Values(pkg, "Service", "ExecStart"))| == 1
    requires Named(pkg) && OthersReturn(host, pkg, c, x)
    ensures Readable(host, pkg, c, x) && RunsAsRoot(LoadedValues(host, pkg, c, x, "Service", "User"))
  {
    var words := Words(host, pkg, c);
    assert HasPrefix(SHELL_AS_ROOT, "/");
    assert [SHELL_AS_ROOT][0 := SHELL_AS_ROOT] == [SHELL_AS_ROOT];
    assert words == [SHELL_AS_ROOT];
    ShellLines();
    InjectedUser(host, pkg, c, x, "/bin/sh", "root");
  }

  lemma ShellLines()
    ensures SHELL_AS_ROOT == "/bin/sh" + "\n" + ("User" + "=" + "root")
    ensures '\n' !in "/bin/sh" && !EndsIn("/bin/sh", '\\')
    ensures '\n' !in "root" && !EndsIn("root", '\\') && Trim("root") == "root"
  {
  }

  // ---- A command whose second line is no setting leaves a unit that cannot be read.

  lemma BreakUnreadable(host: Host, pkg: seq<UnitOption>, c: Container, x: Context, first: string, second: string)
    requires ProperCommand(c) && Named(pkg)
    requires Join(Words(host, pkg, c), " ") == first + "\n" + second
    requires '\n' !in first && '\n' !in second && !EndsIn(first, '\\') && Classify(second).Garbage?
    ensures Parse(Text(host, pkg, c, x)) == None
  {
    CompiledExecAround(host, pkg, c, x);
    CompiledNamed(host, pkg, c, x);
    assert Exec(Words(host, pkg, c)) in Compiled(host, pkg, c, x);
    BreakFails(Compiled(host, pkg, c, x), Exec(Words(host, pkg, c)), first, second);
  }

  const SHELL_TWO_LINES := ["/bin/sh", "-c", "a\nb"]

  // For example this command.
  lemma ShellUnreadable(host: Host, pkg: seq<UnitOption>, c: Container, x: Context)
    requires c.command == Some(SHELL_TWO_LINES) && c.args == None
    requires |UnitWords(Values(pkg, "Service", "ExecStart"))| == 1
    requires Named(pkg)
    ensures Parse(Text(host, pkg, c, x)) == None
  {
    var words := Words(host, pkg, c);
    assert HasPrefix("/bin/sh", "/");
    assert SHELL_TWO_LINES[0 := "/bin/sh"] == SHELL_TWO_LINES;
    assert words == [Join(SHELL_TWO_LINES, " ")];
    TwoLinesJoined();
    BreakUnreadable(host, pkg, c, x, "/bin/sh -c a", "b");
  }

  lemma TwoLinesJoined()
    ensures Join(SHELL_TWO_LINES, " ") == "/bin/sh -c a" + "\n" + "b"
    ensures '\n' !in "/bin/sh -c a" && '\n' !in "b" && !EndsIn("/bin/sh -c a", '\\') && Classify("b").Garbage?
  {
    assert SHELL_TWO_LINES[1..] == ["-c", "a\nb"] && ["-c", "a\nb"][1..] == ["a\nb"];
    assert Join(["-c", "a\nb"], " ") == "-c" + " " + "a\nb";
    assert IndexOf("b", '=') == 1;
  }

  // ---- A value that ends in a backslash takes the next option of its section in.

  lemma {:induction false} OptionLinesAppend(a: seq<UnitOption>, b: seq<UnitOption>)
    ensures OptionLines(a + b) == OptionLines(a) + OptionLines(b)
  {
    if a == [] {
      assert a + b == b;
    } else {
      assert (a + b)[0] == a[0] && (a + b)[1..] == a[1..] + b;
      OptionLinesAppend(a[1..], b);
    }
  }

  lemma MergedLines(o: UnitOption, p: UnitOption)
    ensures OptionLines([o] + [p]) == OptionLines([Merged(o, p)])
  {
    OptionLinesAppend([o], [p]);
    assert [o][1..] == [] && [p][1..] == [] && [Merged(o, p)][1..] == [];
  }

  lemma LinesAround(a: seq<UnitOption>, x: seq<UnitOption>, y: seq<UnitOption>, b: seq<UnitOption>)
    requires OptionLines(x) == OptionLines(y)
    ensures OptionLines(a + x + b) == OptionLines(a + y + b)
  {
    OptionLinesAppend(a + x, b);
    OptionLinesAppend(a + y, b);
    OptionLinesAppend(a, x);
    OptionLinesAppend(a, y);
  }

  // Options of one section that read the same when printed can be exchanged.
  lemma {:induction false} PrintAround(a: seq<UnitOption>, x: seq<UnitOption>, y: seq<UnitOption>, b: seq<UnitOption>,
                                       own: string)
    requires x != [] && y != [] && OptionLines(x) == OptionLines(y)
    requires (forall o :: o in x ==> o.section == own) && (forall o :: o in y ==> o.section == own)
    ensures Print(a + x + b) == Print(a + y + b)
    decreases |a|
  {
    if a == [] {
      LeadAround(x, b, own);
      LeadAround(y, b, own);
      LinesAround([], x, y, InSection(b, own));
      assert [] + x == x && [] + y == y;
    } else {
      var s, rest := a[0].section, a[1..];
      FirstAround(a, x, b, own);
      FirstAround(a, y, b, own);
      if s == own {
        LinesAround([a[0]] + InSection(rest, s), x, y, InSection(b, s));
      } else {
        PrintAround(OutOfSection(rest, s), x, y, OutOfSection(b, s), own);
      }
    }
  }

  function Ending(rest: seq<UnitOption>): string {
    if rest == [] then "" else "\n" + Print(rest)
  }

  lemma PrintParts(opts: seq<UnitOption>, block: seq<UnitOption>, rest: seq<UnitOption>)
    requires opts != [] && FirstBlock(opts) == block && OutOfSection(opts[1..], opts[0].section) == rest
    ensures Print(opts) == "[" + opts[0].section + "]\n" + (OptionLines(block) + Ending(rest))
  {
    PrintHead(opts);
  }

  lemma LeadParts(x: seq<UnitOption>, b: seq<UnitOption>, own: string)
    requires x != [] && forall o :: o in x ==> o.section == own
    ensures (x + b)[0].section == own && FirstBlock(x + b) == x + InSection(b, own)
    ensures OutOfSection((x + b)[1..], own) == OutOfSection(b, own)
  {
    assert x[0] in x && (x + b)[0] == x[0] && (x + b)[1..] == [] + x[1..] + b;
    PartsAround([], x[1..], b, own, own);
    assert [x[0]] + ([] + x[1..] + InSection(b, own)) == x + InSection(b, own);
    assert [] + [] + OutOfSection(b, own) == OutOfSection(b, own);
  }

  lemma LeadAround(x: seq<UnitOption>, b: seq<UnitOption>, own: string)
    requires x != [] && forall o :: o in x ==> o.section == own
    ensures Print(x + b) == "[" + own + "]\n" + (OptionLines(x + InSection(b, own)) + Ending(OutOfSection(b, own)))
  {
    LeadParts(x, b, own);
    PrintParts(x + b, x + InSection(b, own), OutOfSection(b, own));
  }

  lemma FirstParts(a: seq<UnitOption>, x: seq<UnitOption>, b: seq<UnitOption>, own: string)
    requires a != [] && forall o :: o in x ==> o.section == own
    ensures
      var s, rest := a[0].section, a[1..];
      && (a + x + b)[0].section == s
      && FirstBlock(a + x + b) == [a[0]] + InSection(rest, s) + (if s == own then x else []) + InSection(b, s)
      && OutOfSection((a + x + b)[1..], s) == OutOfSection(rest, s) + (if s == own then [] else x) + OutOfSection(b, s)
  {
    var s, rest := a[0].section, a[1..];
    assert (a + x + b)[0] == a[0] && (a + x + b)[1..] == rest + x + b;
    PartsAround(rest, x, b, own, s);
    ConsThree(a[0], InSection(rest, s), if s == own then x else [], InSection(b, s));
  }

  lemma ConsThree(o: UnitOption, a: seq<UnitOption>, b: seq<UnitOption>, d: seq<UnitOption>)
    ensures [o] + (a + b + d) == [o] + a + b + d
  {
  }

  lemma FirstAround(a: seq<UnitOption>, x: seq<UnitOption>, b: seq<UnitOption>, own: string)
    requires a != [] && forall o :: o in x ==> o.section == own
    ensures
      var s, rest := a[0].section, a[1..];
      Print(a + x + b) == "[" + s + "]\n"
        + (OptionLines([a[0]] + InSection(rest, s) + (if s == own then x else []) + InSection(b, s))
           + Ending(OutOfSection(rest, s) + (if s == own then [] else x) + OutOfSection(b, s)))
  {
    var s, rest := a[0].section, a[1..];
    FirstParts(a, x, b, own);
    PrintParts(a + x + b, [a[0]] + InSection(rest, s) + (if s == own then x else []) + InSection(b, s),
      OutOfSection(rest, s) + (if s == own then [] else x) + OutOfSection(b, s));
  }

  // Nobody can tell the two options from the one.
  lemma SwallowPrints(a: seq<UnitOption>, o: UnitOption, p: UnitOption, b: seq<UnitOption>)
    requires o.section == p.section
    ensures Print(a + ([o] + [p]) + b) == Print(a + [Merged(o, p)] + b)
  {
    MergedLines(o, p);
    PrintAround(a, [o] + [p], [Merged(o, p)], b, o.section);
  }

  // A working directory that ends in a backslash takes the protection of the system in, which stands next:
  // then the unit is loaded without it.

  function UnprotectedTail(host: Host, c: Container, x: Context, words: seq<string>): seq<UnitOption> {
    Written(PROTECT_EDITS)[1..] + WrittenFrom(Groups(host, c, x, words), 2)
  }

  const SYSTEM := UnitOption("Service", "ProtectSystem", "true")

  lemma {:induction false} WrittenFirst(edits: seq<Edit>)
    requires edits != []
    ensures Written(edits) == WrittenBy(edits[0]) + Written(edits[1..])
  {
    var k := |edits| - 1;
    if k == 0 {
      assert edits[..0] == [] && edits[1..] == [];
      assert [] + WrittenBy(edits[0]) == WrittenBy(edits[0]) + [];
    } else {
      WrittenFirst(edits[..k]);
      assert edits[..k][1..] == edits[1..][..k - 1] && edits[..k][0] == edits[0] && edits[1..][k - 1] == edits[k];
      Associates(WrittenBy(edits[0]), Written(edits[1..][..k - 1]), WrittenBy(edits[k]));
    }
  }

  lemma SystemFirst()
    ensures Written(PROTECT_EDITS) == [SYSTEM] + Written(PROTECT_EDITS)[1..]
  {
    WrittenFirst(PROTECT_EDITS);
    assert WrittenBy(PROTECT_EDITS[0]) == [SYSTEM];
  }

  lemma WrittenSwallows(host: Host, c: Container, x: Context, words: seq<string>)
    requires c.workingDir != ""
    ensures
      var groups := Groups(host, c, x, words);
      && WrittenFrom(groups, 1) == [SYSTEM] + UnprotectedTail(host, c, x, words)
      && WrittenFrom(groups, 0) == [Directory(c)] + [SYSTEM] + UnprotectedTail(host, c, x, words)
  {
    var groups, rest := Groups(host, c, x, words), Written(PROTECT_EDITS)[1..];
    GroupIndexed(host, c, x, words, 0);
    GroupIndexed(host, c, x, words, 1);
    SystemFirst();
    DirectoryWritten(c);
    Associates([SYSTEM], rest, WrittenFrom(groups, 2));
    Associates([Directory(c)], [SYSTEM], UnprotectedTail(host, c, x, words));
  }

  // What is read instead.
  function Unprotected(host: Host, pkg: seq<UnitOption>, c: Container, x: Context): seq<UnitOption>
    requires ProperCommand(c)
  {
    KeptOptions(pkg, c, x) + [Merged(Directory(c), SYSTEM)] + UnprotectedTail(host, c, x, Words(host, pkg, c))
  }

  lemma SameText(host: Host, pkg: seq<UnitOption>, c: Container, x: Context)
    requires ProperCommand(c) && c.workingDir != ""
    ensures Text(host, pkg, c, x) == Print(Unprotected(host, pkg, c, x))
  {
    var words := Words(host, pkg, c);
    var groups, kept, tail := Groups(host, c, x, words), KeptOptions(pkg, c, x), UnprotectedTail(host, c, x, words);
    CompiledLayout(host, pkg, c, x);
    WrittenSplit(groups, 0);
    WrittenSwallows(host, c, x, words);
    assert [] + WrittenFrom(groups, 0) == WrittenFrom(groups, 0);
    Associates(kept, [Directory(c)] + [SYSTEM], tail);
    SwallowPrints(kept, Directory(c), SYSTEM, tail);
  }

  // Every raw field but the working directory returns.
  predicate BesidesDirectory(host: Host, pkg: seq<UnitOption>, c: Container, x: Context)
    requires ProperCommand(c)
  {
    && Placed(Returning(), KeptOptions(pkg, c, x), SectionsAdded(x))
    && FieldsFitFrom(Returning(), host, c, x, Words(host, pkg, c), 1)
  }

  lemma MergedReturns(c: Container)
    requires '\n' !in c.workingDir && EndsIn(c.workingDir, '\\')
    ensures Returns(Merged(Directory(c), SYSTEM).value, false)
  {
    var line := "ProtectSystem" + "=" + "true";
    assert '\n' !in line && line[|line| - 1] == 'e';
    TwoLines(c.workingDir, line);
    SplitWhole(line, '\n');
    assert [c.workingDir, line][1..] == [line];
  }

  lemma UnprotectedComesBack(host: Host, pkg: seq<UnitOption>, c: Container, x: Context)
    requires ProperCommand(c) && BesidesDirectory(host, pkg, c, x)
    requires '\n' !in c.workingDir && EndsIn(c.workingDir, '\\')
    ensures ComesBack(Unprotected(host, pkg, c, x))
  {
    var words := Words(host, pkg, c);
    MergedReturns(c);
    TailPlaced(host, c, x, words);
    PlacedAround(KeptOptions(pkg, c, x), Merged(Directory(c), SYSTEM), UnprotectedTail(host, c, x, words),
      SectionsAdded(x));
  }

  lemma TailPlaced(host: Host, c: Container, x: Context, words: seq<string>)
    requires FieldsFitFrom(Returning(), host, c, x, words, 1) && c.workingDir != ""
    ensures
      var tail := UnprotectedTail(host, c, x, words);
      && Placed(Returning(), tail, {}) && "Service" in SectionsOf(tail)
      && {"Service"} + SectionsOf(tail) == SectionsAdded(x)
  {
    var tail := UnprotectedTail(host, c, x, words);
    GenerousFits();
    FieldsFrom(Returning(), host, c, x, words, 1);
    WrittenSwallows(host, c, x, words);
    PlacedAppend(Returning(), [SYSTEM], tail, {});
    SectionsAddedAre(host, c, x, words);
    Associates([Directory(c)], [SYSTEM], tail);
    SectionsCons(Directory(c), [SYSTEM] + tail);
    SectionsCons(SYSTEM, tail);
    ServiceInTail(host, c, x, words);
  }

  lemma ServiceInTail(host: Host, c: Container, x: Context, words: seq<string>)
    ensures "Service" in SectionsOf(UnprotectedTail(host, c, x, words))
  {
    ServiceLater(host, c, x, words, 2);
    var o :| o in WrittenFrom(Groups(host, c, x, words), 2) && o.section == "Service";
    assert o in UnprotectedTail(host, c, x, words);
  }

  lemma SwallowsProtection(host: Host, pkg: seq<UnitOption>, c: Container, x: Context)
    requires ProperCommand(c) && Delivered(pkg) && BesidesDirectory(host, pkg, c, x)
    requires '\n' !in c.workingDir && EndsIn(c.workingDir, '\\')
    ensures Readable(host, pkg, c, x)
    ensures LoadedValues(host, pkg, c, x, "Service", "ProtectSystem") == []
    ensures Values(Compiled(host, pkg, c, x), "Service", "ProtectSystem") == ["true"]
  {
    SameText(host, pkg, c, x);
    UnprotectedComesBack(host, pkg, c, x);
    UnprotectedNamed(host, pkg, c, x);
    UnprotectedValues(host, pkg, c, x);
    RoundTripValues(Unprotected(host, pkg, c, x), "Service", "ProtectSystem");
    ProtectionAt(host, pkg, c, x, 0);
  }

  lemma UnprotectedNamed(host: Host, pkg: seq<UnitOption>, c: Container, x: Context)
    requires ProperCommand(c) && Delivered(pkg) && c.workingDir != ""
    ensures Named(Unprotected(host, pkg, c, x))
  {
    var words := Words(host, pkg, c);
    CompiledNamed(host, pkg, c, x);
    CompiledLayout(host, pkg, c, x);
    WrittenSplit(Groups(host, c, x, words), 0);
    WrittenSwallows(host, c, x, words);
    KeptMembers(pkg, c, x);
    DirectoryNamed();
    SectionsNamed();
    assert forall o :: o in UnprotectedTail(host, c, x, words) ==> o in Compiled(host, pkg, c, x);
  }

  // The unit has one ProtectSystem, and that is the one taken in.
  lemma UnprotectedValues(host: Host, pkg: seq<UnitOption>, c: Container, x: Context)
    requires ProperCommand(c) && c.workingDir != ""
    ensures Values(Unprotected(host, pkg, c, x), "Service", "ProtectSystem") == []
  {
    var words, s, n := Words(host, pkg, c), "Service", "ProtectSystem";
    var kept, tail := KeptOptions(pkg, c, x), UnprotectedTail(host, c, x, words);
    var merged := [Merged(Directory(c), SYSTEM)];
    KeptValues(pkg, c, x, s, n);
    ValuesAppend(kept + merged, tail, s, n);
    ValuesAppend(kept, merged, s, n);
    assert merged[1..] == [];
    TailValues(host, pkg, c, x);
  }

  lemma TailValues(host: Host, pkg: seq<UnitOption>, c: Container, x: Context)
    requires ProperCommand(c) && c.workingDir != ""
    ensures Values(UnprotectedTail(host, c, x, Words(host, pkg, c)), "Service", "ProtectSystem") == []
  {
    var words, s, n := Words(host, pkg, c), "Service", "ProtectSystem";
    var groups, kept, tail := Groups(host, c, x, words), KeptOptions(pkg, c, x), UnprotectedTail(host, c, x, words);
    var front := [Directory(c)] + [SYSTEM];
    ProtectionAt(host, pkg, c, x, 0);
    CompiledLayout(host, pkg, c, x);
    WrittenSplit(groups, 0);
    WrittenSwallows(host, c, x, words);
    assert [] + WrittenFrom(groups, 0) == WrittenFrom(groups, 0);
    ValuesAppend(kept, front + tail, s, n);
    ValuesAppend(front, tail, s, n);
    FrontValues(Directory(c));
  }

  lemma FrontValues(o: UnitOption)
    ensures |Values([o] + [SYSTEM], "Service", "ProtectSystem")| >= 1
  {
    ValuesAppend([o], [SYSTEM], "Service", "ProtectSystem");
    assert [SYSTEM][1..] == [];
  }

  // ---- A working directory that brings a section header leads the rest of the Service section away, the user
  // and the protections with it.

  function AfterWorkingDir(host: Host, pkg: seq<UnitOption>, c: Container, x: Context): seq<UnitOption>
    requires ProperCommand(c)
  {
    TailOptions(host, pkg, c, x, 0)
  }

  lemma DirectoryAround(host: Host, pkg: seq<UnitOption>, c: Container, x: Context)
    requires ProperCommand(c) && c.workingDir != ""
    ensures Compiled(host, pkg, c, x)
         == KeptOptions(pkg, c, x) + [Directory(c)] + AfterWorkingDir(host, pkg, c, x)
    ensures AfterWorkingDir(host, pkg, c, x) == WrittenFrom(Groups(host, c, x, Words(host, pkg, c)), 1)
  {
    CompiledCut(host, pkg, c, x, 0);
    NoProtectionsYet(DirectoryOptions(c));
    ProtectionsWritten();
    GroupIndexed(host, c, x, Words(host, pkg, c), 1);
    AllProtectionsLeft(WrittenFrom(Groups(host, c, x, Words(host, pkg, c)), 2));
  }

  lemma AllProtectionsLeft(rest: seq<UnitOption>)
    ensures ProtectionOptions()[0..] + rest == ProtectionOptions() + rest
  {
  }

  lemma DirectoryPlaced(host: Host, pkg: seq<UnitOption>, c: Container, x: Context)
    requires ProperCommand(c) && c.workingDir != "" && BesidesDirectory(host, pkg, c, x)
    ensures
      var rest := AfterWorkingDir(host, pkg, c, x);
      && Placed(Returning(), rest, {}) && "Service" in SectionsOf(rest)
      && {"Service"} + SectionsOf(rest) == SectionsAdded(x)
  {
    var words := Words(host, pkg, c);
    var groups := Groups(host, c, x, words);
    GenerousFits();
    DirectoryAround(host, pkg, c, x);
    FieldsFrom(Returning(), host, c, x, words, 1);
    ServiceLater(host, c, x, words, 1);
    SectionsAddedAre(host, c, x, words);
    GroupIndexed(host, c, x, words, 0);
    DirectoryWritten(c);
    SectionsCons(Directory(c), WrittenFrom(groups, 1));
  }

  // With a harmless directory in its place the unit comes back.
  lemma SaneDirectory(host: Host, pkg: seq<UnitOption>, c: Container, x: Context, sane: UnitOption)
    requires ProperCommand(c) && c.workingDir != "" && BesidesDirectory(host, pkg, c, x)
    requires sane.section == "Service" && Returns(sane.value, false)
    ensures ComesBack(KeptOptions(pkg, c, x) + [sane] + AfterWorkingDir(host, pkg, c, x))
  {
    var kept, rest := KeptOptions(pkg, c, x), AfterWorkingDir(host, pkg, c, x);
    DirectoryPlaced(host, pkg, c, x);
    PlacedAround(kept, sane, rest, SectionsAdded(x));
  }

  lemma PlacedAround(kept: seq<UnitOption>, o: UnitOption, rest: seq<UnitOption>, later: set<string>)
    requires Placed(Returning(), kept, later) && {o.section} + SectionsOf(rest) == later
    requires Placed(Returning(), rest, {}) && o.section in SectionsOf(rest) && Returns(o.value, false)
    ensures ComesBack(kept + [o] + rest)
  {
    OnePlaced(o, rest);
    SectionsCons(o, rest);
    assert later + {} == later;
    PlacedAppend(Returning(), kept, [o] + rest, {});
    Associates(kept, [o], rest);
    PlacedReturning(kept + [o] + rest);
  }

  lemma OnePlaced(o: UnitOption, rest: seq<UnitOption>)
    requires Returns(o.value, false) && o.section in SectionsOf(rest) && Placed(Returning(), rest, {})
    ensures Placed(Returning(), [o] + rest, {})
  {
    assert [o][1..] == [];
    PlacedAppend(Returning(), [o], rest, {});
  }

  // What is left of an option of the Service section that CreatePod replaces.
  lemma LedAway(host: Host, pkg: seq<UnitOption>, c: Container, x: Context, first: string, section: string, n: string)
    requires ProperCommand(c) && Named(pkg) && BesidesDirectory(host, pkg, c, x)
    requires PrintableSection(section) && section != "Service" && n != "WorkingDirectory"
    requires c.workingDir == first + "\n" + ("[" + section + "]") && '\n' !in first && !EndsIn(first, '\\')
    ensures Readable(host, pkg, c, x)
    ensures LoadedValues(host, pkg, c, x, "Service", n)
         == if Replaced(c, x, "Service", n) then [] else TrimEach(Values(pkg, "Service", n))
  {
    var kept, o, rest := KeptOptions(pkg, c, x), Directory(c), AfterWorkingDir(host, pkg, c, x);
    DirectoryAround(host, pkg, c, x);
    CompiledNamed(host, pkg, c, x);
    SingleLineReturns(first, false);
    SaneDirectory(host, pkg, c, x, o.(value := first));
    DirectoryNamed();
    HeaderReads(o, first, section);
    OneOddOwn(kept, o, o.(value := first), rest, [o.(value := Trim(first))], section, n);
    KeptValues(pkg, c, x, "Service", n);
    ValuesOne(o.(value := Trim(first)), "Service", n);
    assert TrimEach([]) == [];
    NothingAdded(TrimEach(Values(kept, "Service", n)));
  }

  lemma ProtectionReplaced(c: Container, x: Context, k: nat)
    requires k < 4
    ensures Protection(k).name != "WorkingDirectory" && Replaced(c, x, "Service", Protection(k).name)
  {
  }

  // So the unit runs as root although a uid was carried to it, and has none of the four protections.
  lemma DirectoryUnprotects(host: Host, pkg: seq<UnitOption>, c: Container, x: Context, first: string, section: string,
                            k: nat)
    requires ProperCommand(c) && Named(pkg) && BesidesDirectory(host, pkg, c, x) && x.ids.uid != "" && k < 4
    requires PrintableSection(section) && section != "Service"
    requires c.workingDir == first + "\n" + ("[" + section + "]") && '\n' !in first && !EndsIn(first, '\\')
    ensures Readable(host, pkg, c, x)
    ensures LoadedValues(host, pkg, c, x, "Service", "User") == []
    ensures RunsAsRoot(LoadedValues(host, pkg, c, x, "Service", "User"))
    ensures LoadedValues(host, pkg, c, x, "Service", Protection(k).name) == []
  {
    LedAway(host, pkg, c, x, first, section, "User");
    ProtectionReplaced(c, x, k);
    LedAway(host, pkg, c, x, first, section, Protection(k).name);
  }

  const DIRECTORY_ELSEWHERE := "/x\n[Foo]"

  lemma ElsewhereLines()
    ensures DIRECTORY_ELSEWHERE == "/x" + "\n" + ("[" + "Foo" + "]")
    ensures '\n' !in "/x" && !EndsIn("/x", '\\') && PrintableSection("Foo")
  {
  }

  // For example this one.
  lemma ElsewhereUnprotected(host: Host, pkg: seq<UnitOption>, c: Container, x: Context, k: nat)
    requires ProperCommand(c) && Named(pkg) && BesidesDirectory(host, pkg, c, x) && x.ids.uid != "" && k < 4
    requires c.workingDir == DIRECTORY_ELSEWHERE
    ensures Readable(host, pkg, c, x)
    ensures RunsAsRoot(LoadedValues(host, pkg, c, x, "Service", "User"))
    ensures LoadedValues(host, pkg, c, x, "Service", Protection(k).name) == []
  {
    ElsewhereLines();
    DirectoryUnprotects(host, pkg, c, x, "/x", "Foo", k);
  }

  // ---- A cluster name that brings the Service header and a User line.

  const META: nat := 7

  function Cluster(pod: Pod): UnitOption {
    UnitOption(KUBERNETES_SECTION, "ClusterName", pod.clusterName)
  }

  // The same without a cluster name.
  function Nameless(x: Context): Context {
    x.(pod := x.pod.(clusterName := ""))
  }

  lemma {:induction false} KeptNameless(pkg: seq<UnitOption>, c: Container, x: Context)
    ensures KeptOptions(pkg, c, Nameless(x)) == KeptOptions(pkg, c, x)
  {
    if pkg != [] {
      KeptNameless(pkg[1..], c, x);
    }
  }

  lemma SameButMeta(host: Host, c: Container, x: Context, words: seq<string>)
    ensures SameBut(Groups(host, c, x, words), Groups(host, c, Nameless(x), words), META)
  {
    forall g | 0 <= g < UNTOUCHED && g != META
      ensures Groups(host, c, x, words)[g] == Groups(host, c, Nameless(x), words)[g]
    {
      GroupIndexed(host, c, x, words, g);
      GroupIndexed(host, c, Nameless(x), words, g);
    }
  }

  function MetaFirst(pod: Pod): seq<UnitOption> {
    [UnitOption(KUBERNETES_SECTION, "Namespace", pod.namespace)]
  }

  function MetaLast(pod: Pod, image: string): seq<UnitOption> {
    [UnitOption(KUBERNETES_SECTION, "Id", pod.uid), UnitOption(KUBERNETES_SECTION, "Image", image)]
  }

  lemma MetaOptions(pod: Pod, image: string)
    ensures Written(MetaEdits(pod, image)) == MetaFirst(pod) + [Cluster(pod)] + MetaLast(pod, image)
  {
    WrittenSingles(MetaEdits(pod, image));
  }

  function BeforeCluster(host: Host, pkg: seq<UnitOption>, c: Container, x: Context): seq<UnitOption>
    requires ProperCommand(c)
  {
    KeptOptions(pkg, c, x) + WrittenByGroups(Groups(host, c, x, Words(host, pkg, c)), META) + MetaFirst(x.pod)
  }

  function AfterCluster(host: Host, pkg: seq<UnitOption>, c: Container, x: Context): seq<UnitOption>
    requires ProperCommand(c)
  {
    MetaLast(x.pod, Clean(host, c.image)) + WrittenFrom(Groups(host, c, x, Words(host, pkg, c)), META + 1)
  }

  lemma ClusterAround(host: Host, pkg: seq<UnitOption>, c: Container, x: Context)
    requires ProperCommand(c)
    ensures Compiled(host, pkg, c, x)
         == BeforeCluster(host, pkg, c, x) + [Cluster(x.pod)] + AfterCluster(host, pkg, c, x)
    ensures Compiled(host, pkg, c, Nameless(x))
         == BeforeCluster(host, pkg, c, x) + [Cluster(Nameless(x).pod)] + AfterCluster(host, pkg, c, x)
  {
    var words := Words(host, pkg, c);
    var a, b := Groups(host, c, x, words), Groups(host, c, Nameless(x), words);
    CompiledLayout(host, pkg, c, x);
    CompiledLayout(host, pkg, c, Nameless(x));
    KeptNameless(pkg, c, x);
    SameButMeta(host, c, x, words);
    CutGroup(a, META);
    AroundGroup(a, b, META);
    GroupIndexed(host, c, x, words, META);
    GroupIndexed(host, c, Nameless(x), words, META);
    MetaOptions(x.pod, Clean(host, c.image));
    MetaOptions(Nameless(x).pod, Clean(host, c.image));
    Rejoin5(KeptOptions(pkg, c, x), WrittenByGroups(a, META), MetaFirst(x.pod), [Cluster(x.pod)],
      MetaLast(x.pod, Clean(host, c.image)), WrittenFrom(a, META + 1));
    Rejoin5(KeptOptions(pkg, c, x), WrittenByGroups(a, META), MetaFirst(x.pod), [Cluster(Nameless(x).pod)],
      MetaLast(x.pod, Clean(host, c.image)), WrittenFrom(a, META + 1));
  }

  lemma Rejoin5<T>(a: seq<T>, b: seq<T>, c: seq<T>, d: seq<T>, e: seq<T>, f: seq<T>)
    ensures a + (b + ((c + d + e) + f)) == (a + b + c) + d + (e + f)
  {
  }

  lemma {:induction false} PrecedesAfter(kept: seq<UnitOption>, rest: seq<UnitOption>, s: string, own: string)
    requires (forall o :: o in kept ==> o.section != own) && Precedes(rest, s, own)
    ensures Precedes(kept + rest, s, own)
  {
    if kept == [] {
      assert kept + rest == rest;
    } else {
      assert (kept + rest)[0] == kept[0] && (kept + rest)[1..] == kept[1..] + rest && kept[0] in kept;
      PrecedesAfter(kept[1..], rest, s, own);
    }
  }

  lemma ServiceFirst(host: Host, pkg: seq<UnitOption>, c: Container, x: Context)
    requires ProperCommand(c) && !HasSection(pkg, KUBERNETES_SECTION)
    ensures Precedes(BeforeCluster(host, pkg, c, x), "Service", KUBERNETES_SECTION)
  {
    var groups, kept := Groups(host, c, x, Words(host, pkg, c)), KeptOptions(pkg, c, x);
    KeptMembers(pkg, c, x);
    HasSectionMember(pkg, KUBERNETES_SECTION);
    HeadWritten(host, c, x, Words(host, pkg, c));
    WrittenGrows(groups, 2, META);
    var more := WrittenByGroups(groups, META)[|WrittenByGroups(groups, 2)|..];
    assert WrittenByGroups(groups, META) == WrittenByGroups(groups, 2) + more;
    PrecedesMore(WrittenByGroups(groups, 2), more, "Service", KUBERNETES_SECTION);
    PrecedesAfter(kept, WrittenByGroups(groups, META), "Service", KUBERNETES_SECTION);
    PrecedesMore(kept + WrittenByGroups(groups, META), MetaFirst(x.pod), "Service", KUBERNETES_SECTION);
  }

  lemma {:induction false} WrittenGrows(groups: seq<seq<Edit>>, m: nat, n: nat)
    requires m <= n <= |groups|
    ensures |WrittenByGroups(groups, m)| <= |WrittenByGroups(groups, n)|
    ensures WrittenByGroups(groups, m) == WrittenByGroups(groups, n)[..|WrittenByGroups(groups, m)|]
  {
    if m < n {
      WrittenGrows(groups, m, n - 1);
    }
  }

  lemma HeadWritten(host: Host, c: Container, x: Context, words: seq<string>)
    ensures Precedes(WrittenByGroups(Groups(host, c, x, words), 2), "Service", KUBERNETES_SECTION)
  {
    var groups := Groups(host, c, x, words);
    GroupIndexed(host, c, x, words, 0);
    GroupIndexed(host, c, x, words, 1);
    DirectoryWritten(c);
    ProtectionsWritten();
    assert WrittenByGroups(groups, 0) == [];
    var head := [] + DirectoryOptions(c) + ProtectionOptions();
    assert WrittenByGroups(groups, 2) == head;
    assert head[0].section == "Service" by {
      ProtectOneLine(0);
      assert head[0] == if c.workingDir != "" then Directory(c) else Protection(0);
    }
  }

  // If the unit would come back without the cluster name, and the package has no X-Kubernetes section: then
  // the unit runs as the user on that line.
  lemma ClusterInjectsUser(host: Host, pkg: seq<UnitOption>, c: Container, x: Context, first: string, w: string)
    requires ProperCommand(c) && Named(pkg) && !HasSection(pkg, KUBERNETES_SECTION)
    requires RawReturns(host, pkg, c, Nameless(x))
    requires x.pod.clusterName == first + "\n" + ("[" + "Service" + "]" + "\n" + ("User" + "=" + w))
    requires '\n' !in first && !EndsIn(first, '\\') && '\n' !in w && !EndsIn(w, '\\')
    ensures Readable(host, pkg, c, x)
    ensures LoadedValues(host, pkg, c, x, "Service", "User")
         == TrimEach(FinalUser(x.ids, Values(pkg, "Service", "User"))) + [Trim(w)]
    ensures RunsAsRoot(LoadedValues(host, pkg, c, x, "Service", "User")) <==> Trim(w) == "" || RootName(Trim(w))
  {
    var a, o, b := BeforeCluster(host, pkg, c, x), Cluster(x.pod), AfterCluster(host, pkg, c, x);
    var out := [o.(value := Trim(first))] + [UnitOption("Service", "User", Trim(w))];
    ClusterAround(host, pkg, c, x);
    CompiledNamed(host, pkg, c, x);
    CompiledComesBack(host, pkg, c, Nameless(x));
    MetaNamed();
    UserNamed();
    SectionsNamed();
    ForeignReads(o, first, "Service", "User", w);
    ServiceFirst(host, pkg, c, x);
    OneOddOther(a, o, Cluster(Nameless(x).pod), b, out, "Service", "Service", "User");
    CompiledUser(host, pkg, c, x);
    NoMetaUser(host, pkg, c, x);
    OutUsers(o.(value := Trim(first)), Trim(w));
    LastUser(TrimEach(FinalUser(x.ids, Values(pkg, "Service", "User"))), Trim(w));
  }

  lemma NoMetaUser(host: Host, pkg: seq<UnitOption>, c: Container, x: Context)
    requires ProperCommand(c)
    ensures Values(AfterCluster(host, pkg, c, x), KUBERNETES_SECTION, "User") == []
  {
    var words := Words(host, pkg, c);
    GroupsOwned(host, c, x, words);
    OwnersFrom(Groups(host, c, x, words), META + 1);
    ValuesNone(AfterCluster(host, pkg, c, x), KUBERNETES_SECTION, "User");
  }
}
