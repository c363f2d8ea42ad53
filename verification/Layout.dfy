// The unit that CreatePod loads, option by option: what the package keeps, then what is written; and how
// a condition on all of its options is one on the raw fields of package, pod, volumes and node.

module Layout {
  import opened Strings
  import opened Kube
  import opened UnitFile
  import opened UnitText
  import opened Users
  import opened Compile

  // ---- Edits as kept and written options.

  function WrittenBy(e: Edit): seq<UnitOption> {
    if e.Del? then [] else Settings(e.section, e.name, e.values)
  }

  function Written(edits: seq<Edit>): seq<UnitOption> {
    if edits == [] then [] else Written(edits[..|edits| - 1]) + WrittenBy(edits[|edits| - 1])
  }

  function KeptBy(opts: seq<UnitOption>, e: Edit): seq<UnitOption> {
    if e.Ins? then opts else Without(opts, e.section, e.name)
  }

  function Kept(opts: seq<UnitOption>, edits: seq<Edit>): seq<UnitOption> {
    if edits == [] then opts else KeptBy(Kept(opts, edits[..|edits| - 1]), edits[|edits| - 1])
  }

  // No edit removes what an earlier one wrote.
  predicate Apart(edits: seq<Edit>) {
    forall i, j :: 0 <= i < j < |edits| && !edits[j].Ins? ==> !Touches(edits[i], edits[j].section, edits[j].name)
  }

  predicate Among(edits: seq<Edit>, o: UnitOption) {
    exists i :: 0 <= i < |edits| && Touches(edits[i], o.section, o.name)
  }

  lemma {:induction false} WrittenAmong(edits: seq<Edit>)
    ensures forall o :: o in Written(edits) ==> Among(edits, o)
  {
    if edits != [] {
      var k := |edits| - 1;
      WrittenAmong(edits[..k]);
      forall o | o in Written(edits)
        ensures Among(edits, o)
      {
        if o in WrittenBy(edits[k]) {
          assert Touches(edits[k], o.section, o.name);
        } else {
          assert Among(edits[..k], o);
          var i :| 0 <= i < k && Touches(edits[..k][i], o.section, o.name);
          assert Touches(edits[i], o.section, o.name);
        }
      }
    }
  }

  lemma WithoutOthers(opts: seq<UnitOption>, section: string, name: string)
    requires forall o :: o in opts ==> !Matches(o, section, name)
    ensures Without(opts, section, name) == opts
  {
    ValuesNone(opts, section, name);
    WithoutAbsent(opts, section, name);
  }

  lemma {:induction false} ApplyLayout(opts: seq<UnitOption>, edits: seq<Edit>)
    requires Apart(edits)
    ensures Apply(opts, edits) == Kept(opts, edits) + Written(edits)
  {
    if edits == [] {
      assert opts + [] == opts;
    } else {
      var k := |edits| - 1;
      var kept, written := Kept(opts, edits[..k]), Written(edits[..k]);
      ApplyLayout(opts, edits[..k]);
      if !edits[k].Ins? {
        WrittenAmong(edits[..k]);
        WithoutAppend(kept, written, edits[k].section, edits[k].name);
        WithoutOthers(written, edits[k].section, edits[k].name);
        assert written + [] == written;
      }
      Associates(KeptBy(kept, edits[k]), written, WrittenBy(edits[k]));
    }
  }

  lemma {:induction false} KeptAppend(a: seq<UnitOption>, b: seq<UnitOption>, edits: seq<Edit>)
    ensures Kept(a + b, edits) == Kept(a, edits) + Kept(b, edits)
  {
    if edits != [] {
      var k := |edits| - 1;
      KeptAppend(a, b, edits[..k]);
      WithoutAppend(Kept(a, edits[..k]), Kept(b, edits[..k]), edits[k].section, edits[k].name);
    }
  }

  lemma {:induction false} KeptOthers(opts: seq<UnitOption>, edits: seq<Edit>)
    requires forall o :: o in opts ==> Untouched(edits, o.section, o.name)
    ensures Kept(opts, edits) == opts
  {
    if edits != [] {
      var k := |edits| - 1;
      forall o | o in opts
        ensures Untouched(edits[..k], o.section, o.name) && !Touches(edits[k], o.section, o.name)
      {
        assert Untouched(edits, o.section, o.name);
      }
      KeptOthers(opts, edits[..k]);
      WithoutOthers(opts, edits[k].section, edits[k].name);
    }
  }

  // ---- The same for groups of edits.

  function KeptByGroups(opts: seq<UnitOption>, groups: seq<seq<Edit>>, n: nat): seq<UnitOption>
    requires n <= |groups|
  {
    if n == 0 then opts else Kept(KeptByGroups(opts, groups, n - 1), groups[n - 1])
  }

  function WrittenByGroups(groups: seq<seq<Edit>>, n: nat): seq<UnitOption>
    requires n <= |groups|
  {
    if n == 0 then [] else WrittenByGroups(groups, n - 1) + Written(groups[n - 1])
  }

  lemma {:induction false} WrittenOwners(groups: seq<seq<Edit>>, n: nat)
    requires n <= |groups| && forall g :: 0 <= g < |groups| ==> OwnedBy(groups[g], g)
    ensures forall o :: o in WrittenByGroups(groups, n) ==> Owner(o.section, o.name) < n
  {
    if n > 0 {
      WrittenOwners(groups, n - 1);
      WrittenAmong(groups[n - 1]);
      assert OwnedBy(groups[n - 1], n - 1);
    }
  }

  lemma {:induction false} GroupsLayout(opts: seq<UnitOption>, groups: seq<seq<Edit>>, n: nat)
    requires n <= |groups|
    requires forall g :: 0 <= g < |groups| ==> OwnedBy(groups[g], g) && Apart(groups[g])
    ensures ApplyGroups(opts, groups, n) == KeptByGroups(opts, groups, n) + WrittenByGroups(groups, n)
  {
    if n == 0 {
      assert opts + [] == opts;
    } else {
      var kept, written := KeptByGroups(opts, groups, n - 1), WrittenByGroups(groups, n - 1);
      GroupsLayout(opts, groups, n - 1);
      WrittenOwners(groups, n - 1);
      GroupLayout(kept, written, groups[n - 1], n - 1);
      assert ApplyGroups(opts, groups, n) == Apply(kept + written, groups[n - 1]);
    }
  }

  lemma GroupLayout(kept: seq<UnitOption>, written: seq<UnitOption>, edits: seq<Edit>, g: nat)
    requires OwnedBy(edits, g) && Apart(edits) && forall o :: o in written ==> Owner(o.section, o.name) < g
    ensures Apply(kept + written, edits) == Kept(kept, edits) + (written + Written(edits))
  {
    ApplyLayout(kept + written, edits);
    KeptAppend(kept, written, edits);
    WrittenStays(written, edits, g);
    Associates(Kept(kept, edits), written, Written(edits));
  }

  lemma WrittenStays(written: seq<UnitOption>, edits: seq<Edit>, g: nat)
    requires OwnedBy(edits, g) && forall o :: o in written ==> Owner(o.section, o.name) < g
    ensures Kept(written, edits) == written
  {
    forall o | o in written
      ensures Untouched(edits, o.section, o.name)
    {
      OtherGroup(edits, g, o.section, o.name);
    }
    KeptOthers(written, edits);
  }

  lemma ApartEarly(c: Container, x: Context)
    ensures Apart(WorkingDirEdits(c)) && Apart(UserEdits(x.ids)) && Apart(InitEdits(x.isInit))
    ensures Apart(AfterEdits(x.previousUnit))
  {
  }

  lemma ApartProtections()
    ensures Apart(PROTECT_EDITS) && Apart(REMAIN_EDITS) && Apart(DELETE_EDITS)
  {
  }

  lemma InsertsApart(edits: seq<Edit>)
    requires forall i :: 0 <= i < |edits| ==> edits[i].Ins?
    ensures Apart(edits)
  {
  }

  lemma ApartGroups(host: Host, c: Container, x: Context, words: seq<string>, g: nat)
    ensures Apart(GroupNumber(host, c, x, words, g))
  {
    ApartEarly(c, x);
    ApartProtections();
    MountInserts(BindsOf(c.volumeMounts, x.vol));
    if g == 7 || g == 8 || g == 10 {
      InsertsApart(GroupNumber(host, c, x, words, g));
    }
  }

  lemma MountInserts(b: Binds)
    ensures forall i :: 0 <= i < |MountEdits(b)| ==> MountEdits(b)[i].Ins?
  {
  }

  // ---- What the package keeps.

  predicate Removes(e: Edit, section: string, name: string) {
    !e.Ins? && Touches(e, section, name)
  }

  predicate SomeRemoves(edits: seq<Edit>, section: string, name: string) {
    exists i :: 0 <= i < |edits| && Removes(edits[i], section, name)
  }

  lemma SomeRemovesLast(edits: seq<Edit>, section: string, name: string)
    requires edits != []
    ensures SomeRemoves(edits, section, name)
      <==> SomeRemoves(edits[..|edits| - 1], section, name) || Removes(edits[|edits| - 1], section, name)
  {
    var k := |edits| - 1;
    if SomeRemoves(edits[..k], section, name) {
      var i :| 0 <= i < k && Removes(edits[..k][i], section, name);
      assert Removes(edits[i], section, name);
    }
    if SomeRemoves(edits, section, name) && !Removes(edits[k], section, name) {
      var i :| 0 <= i < |edits| && Removes(edits[i], section, name);
      assert i < k && edits[..k][i] == edits[i];
    }
  }

  lemma WithoutOne(o: UnitOption, section: string, name: string)
    ensures Without([o], section, name) == if Matches(o, section, name) then [] else [o]
  {
    assert [o][1..] == [] && [o] + [] == [o];
  }

  lemma {:induction false} KeptOne(o: UnitOption, edits: seq<Edit>)
    ensures Kept([o], edits) == if SomeRemoves(edits, o.section, o.name) then [] else [o]
    ensures Kept([], edits) == []
  {
    if edits != [] {
      KeptOne(o, edits[..|edits| - 1]);
      SomeRemovesLast(edits, o.section, o.name);
      WithoutOne(o, edits[|edits| - 1].section, edits[|edits| - 1].name);
    }
  }

  // The options that CreatePod replaces or deletes.
  predicate Replaced(c: Container, x: Context, section: string, name: string) {
    section == "Service"
    && (|| (name == "WorkingDirectory" && c.workingDir != "")
        || name == "ProtectSystem" || name == "ProtectHome" || name == "PrivateMounts" || name == "ReadOnlyPaths"
        || ((name == "User" || name == "Group") && x.ids.uid != "")
        || (name == "Type" && x.isInit)
        || name == "RemainAfterExit" || name == "ExecStart" || name == "EnvironmentFile")
  }

  function KeptOptions(pkg: seq<UnitOption>, c: Container, x: Context): seq<UnitOption> {
    if pkg == [] then []
    else (if Replaced(c, x, pkg[0].section, pkg[0].name) then [] else [pkg[0]]) + KeptOptions(pkg[1..], c, x)
  }

  lemma DirectoryRemoves(c: Container, x: Context, section: string, name: string)
    requires Owner(section, name) == 0
    ensures SomeRemoves(WorkingDirEdits(c), section, name) <==> Replaced(c, x, section, name)
  {
    if c.workingDir != "" { assert Removes(WorkingDirEdits(c)[0], "Service", "WorkingDirectory"); }
  }

  lemma UserRemoves(c: Container, x: Context, section: string, name: string)
    requires Owner(section, name) == 2
    ensures SomeRemoves(UserEdits(x.ids), section, name) <==> Replaced(c, x, section, name)
  {
    if x.ids.uid != "" {
      assert Removes(UserEdits(x.ids)[0], "Service", "User") && Removes(UserEdits(x.ids)[1], "Service", "Group");
    }
  }

  lemma InitRemoves(c: Container, x: Context, section: string, name: string)
    requires Owner(section, name) == 3
    ensures SomeRemoves(InitEdits(x.isInit), section, name) <==> Replaced(c, x, section, name)
  {
    if x.isInit { assert Removes(InitEdits(true)[0], "Service", "Type"); }
  }

  lemma AfterRemoves(c: Container, x: Context, section: string, name: string)
    requires Owner(section, name) == 4
    ensures !SomeRemoves(AfterEdits(x.previousUnit), section, name) && !Replaced(c, x, section, name)
  {
  }

  lemma ProtectRemoves(c: Container, x: Context, section: string, name: string)
    requires Owner(section, name) == 1
    ensures SomeRemoves(PROTECT_EDITS, section, name) <==> Replaced(c, x, section, name)
  {
    assert Removes(PROTECT_EDITS[0], "Service", "ProtectSystem");
    assert Removes(PROTECT_EDITS[1], "Service", "ProtectHome");
    assert Removes(PROTECT_EDITS[2], "Service", "PrivateMounts");
    assert Removes(PROTECT_EDITS[3], "Service", "ReadOnlyPaths");
  }

  lemma LateRemoves(host: Host, c: Container, x: Context, words: seq<string>, section: string, name: string)
    requires Owner(section, name) >= 5
    ensures SomeRemoves(GroupNumber(host, c, x, words, Owner(section, name)), section, name)
      <==> Replaced(c, x, section, name)
  {
    var g := Owner(section, name);
    if g == 5 { assert Removes(REMAIN_EDITS[0], "Service", "RemainAfterExit"); }
    else if g == 6 { assert Removes(ExecEdits(words)[0], "Service", "ExecStart"); }
    else if g == 8 { MountInserts(BindsOf(c.volumeMounts, x.vol)); }
    else if g == 9 { assert Removes(DELETE_EDITS[0], "Service", "EnvironmentFile"); }
  }

  lemma GroupRemoves(host: Host, c: Container, x: Context, words: seq<string>, section: string, name: string)
    ensures SomeRemoves(GroupNumber(host, c, x, words, Owner(section, name)), section, name)
      <==> Replaced(c, x, section, name)
  {
    var g := Owner(section, name);
    if g == 0 { DirectoryRemoves(c, x, section, name); }
    else if g == 1 { ProtectRemoves(c, x, section, name); }
    else if g == 2 { UserRemoves(c, x, section, name); }
    else if g == 3 { InitRemoves(c, x, section, name); }
    else if g == 4 { AfterRemoves(c, x, section, name); }
    else { LateRemoves(host, c, x, words, section, name); }
  }

  // A single option survives the groups iff its own group does not remove it.
  lemma {:induction false} KeptOneByGroups(o: UnitOption, groups: seq<seq<Edit>>, n: nat)
    requires n <= |groups| && forall g :: 0 <= g < |groups| ==> OwnedBy(groups[g], g)
    ensures
      var g := Owner(o.section, o.name);
      KeptByGroups([o], groups, n) == if g < n && SomeRemoves(groups[g], o.section, o.name) then [] else [o]
    ensures KeptByGroups([], groups, n) == []
  {
    if n > 0 {
      KeptOneByGroups(o, groups, n - 1);
      KeptOne(o, groups[n - 1]);
      if Owner(o.section, o.name) != n - 1 {
        OtherGroup(groups[n - 1], n - 1, o.section, o.name);
      }
    }
  }

  lemma {:induction false} KeptByGroupsAppend(a: seq<UnitOption>, b: seq<UnitOption>, groups: seq<seq<Edit>>, n: nat)
    requires n <= |groups|
    ensures KeptByGroups(a + b, groups, n) == KeptByGroups(a, groups, n) + KeptByGroups(b, groups, n)
  {
    if n > 0 {
      KeptByGroupsAppend(a, b, groups, n - 1);
      KeptAppend(KeptByGroups(a, groups, n - 1), KeptByGroups(b, groups, n - 1), groups[n - 1]);
    }
  }

  lemma {:induction false} KeptIs(host: Host, pkg: seq<UnitOption>, c: Container, x: Context, words: seq<string>)
    ensures KeptByGroups(pkg, Groups(host, c, x, words), UNTOUCHED) == KeptOptions(pkg, c, x)
  {
    var groups := Groups(host, c, x, words);
    GroupsOwned(host, c, x, words);
    if pkg == [] {
      KeptOneByGroups(UnitOption("", "", ""), groups, UNTOUCHED);
    } else {
      var o := pkg[0];
      assert pkg == [o] + pkg[1..];
      KeptByGroupsAppend([o], pkg[1..], groups, UNTOUCHED);
      KeptOneByGroups(o, groups, UNTOUCHED);
      GroupRemoves(host, c, x, words, o.section, o.name);
      GroupIndexed(host, c, x, words, Owner(o.section, o.name));
      KeptIs(host, pkg[1..], c, x, words);
    }
  }

  lemma {:induction false} KeptValues(pkg: seq<UnitOption>, c: Container, x: Context, section: string, name: string)
    ensures Values(KeptOptions(pkg, c, x), section, name)
         == if Replaced(c, x, section, name) then [] else Values(pkg, section, name)
  {
    if pkg != [] {
      var o, kept := pkg[0], KeptOptions(pkg[1..], c, x);
      KeptValues(pkg[1..], c, x, section, name);
      if Replaced(c, x, o.section, o.name) {
        assert [] + kept == kept;
      } else {
        assert ([o] + kept)[1..] == kept;
      }
    }
  }

  function WrittenOptions(host: Host, c: Container, x: Context, words: seq<string>): seq<UnitOption> {
    WrittenByGroups(Groups(host, c, x, words), |Groups(host, c, x, words)|)
  }

  // The unit is what the package keeps, followed by what is written.
  lemma CompiledLayout(host: Host, pkg: seq<UnitOption>, c: Container, x: Context)
    requires ProperCommand(c)
    ensures Compiled(host, pkg, c, x) == KeptOptions(pkg, c, x) + WrittenOptions(host, c, x, Words(host, pkg, c))
  {
    var words := Words(host, pkg, c);
    var groups := Groups(host, c, x, words);
    GroupsOwned(host, c, x, words);
    forall g | 0 <= g < |groups|
      ensures Apart(groups[g])
    {
      ApartGroups(host, c, x, words, g);
      GroupIndexed(host, c, x, words, g);
    }
    GroupsLayout(pkg, groups, |groups|);
    KeptIs(host, pkg, c, x, words);
  }

  // ---- A condition on every option of the unit, as one on its raw fields.

  // A condition on an option, given whether it is the last of its section.
  type Fit = (UnitOption, bool) -> bool

  // later are the sections of the options that follow.
  predicate Placed(ok: Fit, opts: seq<UnitOption>, later: set<string>) {
    opts == []
    || (ok(opts[0], !HasSection(opts[1..], opts[0].section) && opts[0].section !in later)
        && Placed(ok, opts[1..], later))
  }

  // What returns always fits.
  ghost predicate Generous(ok: Fit) {
    forall o: UnitOption, last: bool :: Returns(o.value, last) ==> ok(o, last)
  }

  function SectionsOf(opts: seq<UnitOption>): set<string> {
    set o | o in opts :: o.section
  }

  lemma HasSectionAppend(a: seq<UnitOption>, b: seq<UnitOption>, s: string)
    ensures HasSection(a + b, s) <==> HasSection(a, s) || s in SectionsOf(b)
  {
    HasSectionMember(a, s);
    HasSectionMember(a + b, s);
    if s in SectionsOf(b) {
      var o :| o in b && o.section == s;
      assert o in a + b;
    }
    if HasSection(a, s) {
      var o :| o in a && o.section == s;
      assert o in a + b;
    }
  }

  lemma {:induction false} PlacedAppend(ok: Fit, a: seq<UnitOption>, b: seq<UnitOption>, later: set<string>)
    ensures Placed(ok, a + b, later) <==> Placed(ok, a, SectionsOf(b) + later) && Placed(ok, b, later)
  {
    if a == [] {
      assert a + b == b;
    } else {
      assert (a + b)[0] == a[0] && (a + b)[1..] == a[1..] + b;
      PlacedAppend(ok, a[1..], b, later);
      HasSectionAppend(a[1..], b, a[0].section);
    }
  }

  // Options whose sections all go on later.
  lemma {:induction false} PlacedMore(ok: Fit, opts: seq<UnitOption>, later: set<string>)
    requires forall o :: o in opts ==> o.section in later
    ensures Placed(ok, opts, later) <==> forall o :: o in opts ==> ok(o, false)
  {
    if opts != [] {
      assert opts == [opts[0]] + opts[1..];
      PlacedMore(ok, opts[1..], later);
    }
  }

  // ---- A condition on all that a group writes.

  predicate EditHolds(p: UnitOption -> bool, e: Edit) {
    e.Del? || forall j :: 0 <= j < |e.values| ==> p(UnitOption(e.section, e.name, e.values[j]))
  }

  predicate EditsHold(p: UnitOption -> bool, edits: seq<Edit>) {
    forall i :: 0 <= i < |edits| ==> EditHolds(p, edits[i])
  }

  predicate AllHold(p: UnitOption -> bool, opts: seq<UnitOption>) {
    forall o :: o in opts ==> p(o)
  }

  lemma AllHoldAppend(p: UnitOption -> bool, a: seq<UnitOption>, b: seq<UnitOption>)
    ensures AllHold(p, a + b) <==> AllHold(p, a) && AllHold(p, b)
  {
    if AllHold(p, a + b) {
      assert forall o :: o in a ==> o in a + b;
      assert forall o :: o in b ==> o in a + b;
    }
  }

  lemma WrittenByHolds(p: UnitOption -> bool, e: Edit)
    ensures AllHold(p, WrittenBy(e)) <==> EditHolds(p, e)
  {
    if !e.Del? {
      var opts := WrittenBy(e);
      assert forall j :: 0 <= j < |e.values| ==>
        opts[j] == UnitOption(e.section, e.name, e.values[j]) && opts[j] in opts;
    }
  }

  lemma {:induction false} WrittenHolds(p: UnitOption -> bool, edits: seq<Edit>)
    ensures AllHold(p, Written(edits)) <==> EditsHold(p, edits)
  {
    if edits != [] {
      var k := |edits| - 1;
      WrittenHolds(p, edits[..k]);
      WrittenByHolds(p, edits[k]);
      AllHoldAppend(p, Written(edits[..k]), WrittenBy(edits[k]));
      assert EditsHold(p, edits) <==> EditsHold(p, edits[..k]) && EditHolds(p, edits[k]) by {
        assert edits == edits[..k] + [edits[k]];
      }
    }
  }

  // Everything written from group g on.
  function WrittenFrom(groups: seq<seq<Edit>>, g: nat): seq<UnitOption>
    requires g <= |groups|
    decreases |groups| - g
  {
    if g == |groups| then [] else Written(groups[g]) + WrittenFrom(groups, g + 1)
  }

  lemma WrittenNext(groups: seq<seq<Edit>>, g: nat)
    requires g < |groups|
    ensures WrittenByGroups(groups, g + 1) == WrittenByGroups(groups, g) + Written(groups[g])
    ensures WrittenFrom(groups, g) == Written(groups[g]) + WrittenFrom(groups, g + 1)
  {
  }

  lemma {:induction false} WrittenSplit(groups: seq<seq<Edit>>, g: nat)
    requires g <= |groups|
    ensures WrittenByGroups(groups, |groups|) == WrittenByGroups(groups, g) + WrittenFrom(groups, g)
    decreases |groups| - g
  {
    if g == |groups| {
      assert WrittenByGroups(groups, g) + [] == WrittenByGroups(groups, g);
    } else {
      WrittenSplit(groups, g + 1);
      WrittenNext(groups, g);
      Associates(WrittenByGroups(groups, g), Written(groups[g]), WrittenFrom(groups, g + 1));
    }
  }

  lemma {:induction false} OwnersFrom(groups: seq<seq<Edit>>, g: nat)
    requires g <= |groups| && forall i :: 0 <= i < |groups| ==> OwnedBy(groups[i], i)
    ensures forall o :: o in WrittenFrom(groups, g) ==> g <= Owner(o.section, o.name) < |groups|
    decreases |groups| - g
  {
    if g < |groups| {
      OwnersFrom(groups, g + 1);
      WrittenAmong(groups[g]);
      assert OwnedBy(groups[g], g);
    }
  }

  lemma {:induction false} WrittenIn(groups: seq<seq<Edit>>, g: nat, h: nat, o: UnitOption)
    requires g <= h < |groups| && o in Written(groups[h])
    ensures o in WrittenFrom(groups, g)
    decreases h - g
  {
    if g < h {
      WrittenIn(groups, g + 1, h, o);
    }
  }

  lemma LateSections(section: string, name: string)
    requires Owner(section, name) < UNTOUCHED
    ensures section == "Service" || section == KUBERNETES_SECTION || section == "Unit"
    ensures Owner(section, name) >= 5 ==> section != "Unit"
    ensures Owner(section, name) >= 8 ==> section == "Service"
  {
  }

  // The sections that go on from group g.
  function LaterSections(host: Host, c: Container, x: Context, words: seq<string>, g: nat): set<string>
    requires g <= UNTOUCHED
  {
    SectionsOf(WrittenFrom(Groups(host, c, x, words), g))
  }

  lemma ServiceLater(host: Host, c: Container, x: Context, words: seq<string>, g: nat)
    requires g <= 10
    ensures "Service" in LaterSections(host, c, x, words, g)
  {
    var env := Settings("Service", "Environment", Environment(host, c));
    EnvironmentWritten(Environment(host, c));
    GroupIndexed(host, c, x, words, 10);
    WrittenIn(Groups(host, c, x, words), g, 10, env[0]);
  }

  lemma KubernetesLater(host: Host, c: Container, x: Context, words: seq<string>, g: nat)
    requires g <= 7
    ensures KUBERNETES_SECTION in LaterSections(host, c, x, words, g)
  {
    MetaWritten(x.pod, Clean(host, c.image));
    GroupIndexed(host, c, x, words, 7);
    WrittenIn(Groups(host, c, x, words), g, 7, UnitOption(KUBERNETES_SECTION, "Image", Clean(host, c.image)));
  }

  lemma NotLater(host: Host, c: Container, x: Context, words: seq<string>, g: nat)
    requires g <= UNTOUCHED
    ensures forall s :: s in LaterSections(host, c, x, words, g) ==>
      s == "Service" || s == KUBERNETES_SECTION || s == "Unit"
    ensures g >= 5 ==> "Unit" !in LaterSections(host, c, x, words, g)
    ensures g >= 8 ==> KUBERNETES_SECTION !in LaterSections(host, c, x, words, g)
  {
    var groups := Groups(host, c, x, words);
    GroupsOwned(host, c, x, words);
    OwnersFrom(groups, g);
    forall o | o in WrittenFrom(groups, g)
      ensures o.section == "Service" || o.section == KUBERNETES_SECTION || o.section == "Unit"
      ensures g >= 5 ==> o.section != "Unit"
      ensures g >= 8 ==> o.section != KUBERNETES_SECTION
    {
      LateSections(o.section, o.name);
    }
  }

  lemma {:induction false} EnvironmentWritten(env: seq<string>)
    ensures Written(EnvironmentEdits(env)) == Settings("Service", "Environment", env)
  {
    if env != [] {
      var k := |env| - 1;
      EnvironmentWritten(env[..k]);
      assert EnvironmentEdits(env)[..k] == EnvironmentEdits(env[..k]);
    }
  }

  lemma MetaWritten(pod: Pod, image: string)
    ensures Written(MetaEdits(pod, image))
      == Written(MetaEdits(pod, image)[..3]) + [UnitOption(KUBERNETES_SECTION, "Image", image)]
  {
    var edits := MetaEdits(pod, image);
    assert edits[..|edits| - 1] == edits[..3];
    assert WrittenBy(edits[3]) == [UnitOption(KUBERNETES_SECTION, "Image", image)];
  }

  // ---- The raw fields.

  predicate PathsFit(ok: Fit, name: string, paths: seq<string>) {
    |paths| > 0 ==> ok(UnitOption("Service", name, Join(paths, " ")), false)
  }

  predicate MountsFit(ok: Fit, b: Binds) {
    && PathsFit(ok, "ReadWritePaths", b.readWrite)
    && PathsFit(ok, "BindPaths", b.binds)
    && PathsFit(ok, "BindReadOnlyPaths", b.readOnly)
  }

  predicate EnvironmentFits(ok: Fit, env: seq<string>) {
    forall i :: 0 <= i < |env| ==> ok(UnitOption("Service", "Environment", env[i]), i == |env| - 1)
  }

  predicate MetaFits(ok: Fit, pod: Pod, image: string) {
    && ok(UnitOption(KUBERNETES_SECTION, "Namespace", pod.namespace), false)
    && ok(UnitOption(KUBERNETES_SECTION, "ClusterName", pod.clusterName), false)
    && ok(UnitOption(KUBERNETES_SECTION, "Id", pod.uid), false)
    && ok(UnitOption(KUBERNETES_SECTION, "Image", image), true)
  }

  predicate UserFits(ok: Fit, ids: Ids) {
    ids.uid != "" ==>
      ok(UnitOption("Service", "User", ids.uid), false) && ok(UnitOption("Service", "Group", ids.gid), false)
  }

  // What group g puts into the file of the pod's own.
  predicate FieldsFit(ok: Fit, host: Host, c: Container, x: Context, words: seq<string>, g: nat) {
    if g == 0 then c.workingDir != "" ==> ok(UnitOption("Service", "WorkingDirectory", c.workingDir), false)
    else if g == 2 then UserFits(ok, x.ids)
    else if g == 4 then x.previousUnit != "" ==> ok(UnitOption("Unit", "After", x.previousUnit), true)
    else if g == 6 then ok(UnitOption("Service", "ExecStart", Join(words, " ")), false)
    else if g == 7 then MetaFits(ok, x.pod, Clean(host, c.image))
    else if g == 8 then MountsFit(ok, BindsOf(c.volumeMounts, x.vol))
    else if g == 10 then EnvironmentFits(ok, Environment(host, c))
    else true
  }

  function Inside(ok: Fit): UnitOption -> bool {
    (o: UnitOption) => ok(o, false)
  }

  // Groups 0 to 3, 5, 6, 8 and 9: their sections go on.
  lemma GroupGoesOn(ok: Fit, host: Host, c: Container, x: Context, words: seq<string>, g: nat)
    requires g <= 9 && g != 4 && g != 7
    ensures Placed(ok, Written(GroupNumber(host, c, x, words, g)), LaterSections(host, c, x, words, g + 1))
      <==> EditsHold(Inside(ok), GroupNumber(host, c, x, words, g))
  {
    var edits, later := GroupNumber(host, c, x, words, g), LaterSections(host, c, x, words, g + 1);
    ServiceLater(host, c, x, words, g + 1);
    if g < 7 {
      KubernetesLater(host, c, x, words, g + 1);
    }
    GroupsOwned(host, c, x, words);
    GroupIndexed(host, c, x, words, g);
    WrittenAmong(edits);
    forall o | o in Written(edits)
      ensures o.section in later
    {
      assert Owner(o.section, o.name) == g;
      OwnedSections(o.section, o.name);
    }
    PlacedMore(ok, Written(edits), later);
    WrittenHolds(Inside(ok), edits);
  }

  lemma OwnedSections(section: string, name: string)
    requires Owner(section, name) < UNTOUCHED && Owner(section, name) != 4
    ensures section == "Service" || (section == KUBERNETES_SECTION && Owner(section, name) in {3, 7})
  {
  }

  lemma ConstantFits(ok: Fit, section: string, name: string, v: string)
    requires Generous(ok) && '\n' !in v && v != "" && v[|v| - 1] != '\\'
    ensures Inside(ok)(UnitOption(section, name, v))
  {
    SingleLineReturns(v, false);
    assert Returns(UnitOption(section, name, v).value, false);
  }

  lemma HoldsOne(p: UnitOption -> bool, e: Edit)
    requires e.Del? || |e.values| == 1
    ensures EditsHold(p, [e]) <==> (e.Del? || p(UnitOption(e.section, e.name, e.values[0])))
    ensures EditsHold(p, [])
  {
    assert EditHolds(p, [e][0]) <==> (e.Del? || p(UnitOption(e.section, e.name, e.values[0])));
  }

  lemma HoldsAppend(p: UnitOption -> bool, a: seq<Edit>, b: seq<Edit>)
    ensures EditsHold(p, a + b) <==> EditsHold(p, a) && EditsHold(p, b)
  {
    if EditsHold(p, a + b) {
      assert forall i :: 0 <= i < |a| ==> a[i] == (a + b)[i];
      assert forall i :: 0 <= i < |b| ==> b[i] == (a + b)[|a| + i];
    }
  }

  lemma ProtectHolds(ok: Fit, k: nat)
    requires Generous(ok) && k < |PROTECT_EDITS|
    ensures EditHolds(Inside(ok), PROTECT_EDITS[k])
  {
    ConstantFits(ok, PROTECT_EDITS[k].section, PROTECT_EDITS[k].name, PROTECT_EDITS[k].values[0]);
  }

  lemma EarlyFields(ok: Fit, host: Host, c: Container, x: Context, words: seq<string>, g: nat)
    requires g in {0, 2}
    ensures EditsHold(Inside(ok), GroupNumber(host, c, x, words, g)) <==> FieldsFit(ok, host, c, x, words, g)
  {
    var p := Inside(ok);
    if g == 0 {
      HoldsOne(p, Ovr("Service", "WorkingDirectory", [c.workingDir]));
    } else {
      var user, group := Ovr("Service", "User", [x.ids.uid]), Ovr("Service", "Group", [x.ids.gid]);
      HoldsOne(p, user);
      HoldsOne(p, group);
      HoldsAppend(p, [user], [group]);
      assert [user] + [group] == [user, group];
    }
  }

  lemma ProtectFields(ok: Fit)
    requires Generous(ok)
    ensures EditsHold(Inside(ok), PROTECT_EDITS)
  {
    forall k | 0 <= k < |PROTECT_EDITS|
      ensures EditHolds(Inside(ok), PROTECT_EDITS[k])
    {
      ProtectHolds(ok, k);
    }
  }

  lemma InitFields(ok: Fit, isInit: bool)
    requires Generous(ok)
    ensures EditsHold(Inside(ok), InitEdits(isInit))
  {
    var p := Inside(ok);
    var kind, mark := Ovr("Service", "Type", ["oneshot"]), Ins(KUBERNETES_SECTION, "InitContainer", ["true"]);
    ConstantFits(ok, "Service", "Type", "oneshot");
    ConstantFits(ok, KUBERNETES_SECTION, "InitContainer", "true");
    HoldsOne(p, kind);
    HoldsOne(p, mark);
    HoldsAppend(p, [kind], [mark]);
    assert [kind] + [mark] == [kind, mark];
  }

  lemma RemainFields(ok: Fit)
    requires Generous(ok)
    ensures EditsHold(Inside(ok), REMAIN_EDITS) && EditsHold(Inside(ok), DELETE_EDITS)
  {
    ConstantFits(ok, "Service", "RemainAfterExit", "true");
    HoldsOne(Inside(ok), Ovr("Service", "RemainAfterExit", ["true"]));
    HoldsOne(Inside(ok), Del("Service", "EnvironmentFile"));
  }

  lemma ConstantFields(ok: Fit, host: Host, c: Container, x: Context, words: seq<string>, g: nat)
    requires Generous(ok) && g in {1, 3, 5, 9}
    ensures EditsHold(Inside(ok), GroupNumber(host, c, x, words, g))
  {
    if g == 1 {
      ProtectFields(ok);
    } else if g == 3 {
      InitFields(ok, x.isInit);
    } else {
      RemainFields(ok);
    }
  }

  lemma JoinedHolds(ok: Fit, name: string, paths: seq<string>)
    ensures EditsHold(Inside(ok), JoinedIfAny(name, paths)) <==> PathsFit(ok, name, paths)
  {
    HoldsOne(Inside(ok), Ins("Service", name, [Join(paths, " ")]));
  }

  lemma MountFields(ok: Fit, b: Binds)
    requires Generous(ok)
    ensures EditsHold(Inside(ok), MountEdits(b)) <==> MountsFit(ok, b)
  {
    var p, tmp := Inside(ok), Ins("Service", "TemporaryFileSystem", ["/var /run"]);
    var rw, bi, ro := JoinedIfAny("ReadWritePaths", b.readWrite), JoinedIfAny("BindPaths", b.binds),
      JoinedIfAny("BindReadOnlyPaths", b.readOnly);
    ConstantFits(ok, "Service", "TemporaryFileSystem", "/var /run");
    HoldsOne(p, tmp);
    JoinedHolds(ok, "ReadWritePaths", b.readWrite);
    JoinedHolds(ok, "BindPaths", b.binds);
    JoinedHolds(ok, "BindReadOnlyPaths", b.readOnly);
    HoldsAppend(p, [tmp] + rw + bi, ro);
    HoldsAppend(p, [tmp] + rw, bi);
    HoldsAppend(p, [tmp], rw);
  }

  lemma LateFields(ok: Fit, host: Host, c: Container, x: Context, words: seq<string>, g: nat)
    requires Generous(ok) && g in {6, 8}
    ensures EditsHold(Inside(ok), GroupNumber(host, c, x, words, g)) <==> FieldsFit(ok, host, c, x, words, g)
  {
    if g == 6 {
      HoldsOne(Inside(ok), Ovr("Service", "ExecStart", [Join(words, " ")]));
    } else {
      MountFields(ok, BindsOf(c.volumeMounts, x.vol));
    }
  }

  lemma AfterWritten(previousUnit: string)
    requires previousUnit != ""
    ensures Written(AfterEdits(previousUnit)) == [UnitOption("Unit", "After", previousUnit)]
  {
    var after, edits := UnitOption("Unit", "After", previousUnit), AfterEdits(previousUnit);
    assert edits[..0] == [] && WrittenBy(edits[0]) == [after] && [] + [after] == [after];
  }

  lemma AfterFields(ok: Fit, host: Host, c: Container, x: Context, words: seq<string>)
    ensures Placed(ok, Written(AfterEdits(x.previousUnit)), LaterSections(host, c, x, words, 5))
      <==> FieldsFit(ok, host, c, x, words, 4)
  {
    NotLater(host, c, x, words, 5);
    if x.previousUnit != "" {
      AfterWritten(x.previousUnit);
      assert [UnitOption("Unit", "After", x.previousUnit)][1..] == [];
    }
  }

  lemma MetaFields(ok: Fit, host: Host, c: Container, x: Context, words: seq<string>)
    ensures Placed(ok, Written(MetaEdits(x.pod, Clean(host, c.image))), LaterSections(host, c, x, words, 8))
      <==> MetaFits(ok, x.pod, Clean(host, c.image))
  {
    var edits, later := MetaEdits(x.pod, Clean(host, c.image)), LaterSections(host, c, x, words, 8);
    var image := UnitOption(KUBERNETES_SECTION, "Image", Clean(host, c.image));
    NotLater(host, c, x, words, 8);
    MetaWritten(x.pod, Clean(host, c.image));
    PlacedAppend(ok, Written(edits[..3]), [image], later);
    assert [image][1..] == [] && image in [image];
    MetaFront(ok, x.pod, Clean(host, c.image), SectionsOf([image]) + later);
  }

  lemma MetaFront(ok: Fit, pod: Pod, image: string, later: set<string>)
    requires KUBERNETES_SECTION in later
    ensures Placed(ok, Written(MetaEdits(pod, image)[..3]), later)
      <==> && ok(UnitOption(KUBERNETES_SECTION, "Namespace", pod.namespace), false)
           && ok(UnitOption(KUBERNETES_SECTION, "ClusterName", pod.clusterName), false)
           && ok(UnitOption(KUBERNETES_SECTION, "Id", pod.uid), false)
  {
    var edits := MetaEdits(pod, image)[..3];
    WrittenAmong(edits);
    PlacedMore(ok, Written(edits), later);
    WrittenHolds(Inside(ok), edits);
    MetaHolds(ok, pod, image);
  }

  lemma MetaHolds(ok: Fit, pod: Pod, image: string)
    ensures EditsHold(Inside(ok), MetaEdits(pod, image)[..3])
      <==> && ok(UnitOption(KUBERNETES_SECTION, "Namespace", pod.namespace), false)
           && ok(UnitOption(KUBERNETES_SECTION, "ClusterName", pod.clusterName), false)
           && ok(UnitOption(KUBERNETES_SECTION, "Id", pod.uid), false)
  {
    var p, edits := Inside(ok), MetaEdits(pod, image);
    HoldsOne(p, edits[0]);
    HoldsOne(p, edits[1]);
    HoldsOne(p, edits[2]);
    HoldsAppend(p, [edits[0]], [edits[1]]);
    HoldsAppend(p, [edits[0]] + [edits[1]], [edits[2]]);
    assert edits[..3] == [edits[0]] + [edits[1]] + [edits[2]];
  }

  lemma {:induction false} EnvironmentFields(ok: Fit, env: seq<string>)
    ensures Placed(ok, Settings("Service", "Environment", env), {}) <==> EnvironmentFits(ok, env)
  {
    if env != [] {
      var opts := Settings("Service", "Environment", env);
      EnvironmentFields(ok, env[1..]);
      assert opts[1..] == Settings("Service", "Environment", env[1..]);
      assert HasSection(opts[1..], "Service") <==> |env| > 1 by {
        if |env| > 1 { assert opts[1..][0].section == "Service"; }
      }
      assert forall i :: 0 <= i < |env| - 1 ==> env[1..][i] == env[i + 1];
      if EnvironmentFits(ok, env[1..]) {
        assert forall i :: 1 <= i < |env| ==> env[i] == env[1..][i - 1];
      }
    }
  }

  // What a group writes fits, given what follows it, iff its raw fields do.
  lemma GroupFields(ok: Fit, host: Host, c: Container, x: Context, words: seq<string>, g: nat)
    requires Generous(ok) && g <= 10
    ensures Placed(ok, Written(GroupNumber(host, c, x, words, g)), LaterSections(host, c, x, words, g + 1))
      <==> FieldsFit(ok, host, c, x, words, g)
  {
    if g == 4 {
      AfterFields(ok, host, c, x, words);
    } else if g == 7 {
      MetaFields(ok, host, c, x, words);
    } else if g == 10 {
      EnvironmentWritten(Environment(host, c));
      EnvironmentFields(ok, Environment(host, c));
      assert LaterSections(host, c, x, words, 11) == {};
    } else {
      GroupGoesOn(ok, host, c, x, words, g);
      if g in {1, 3, 5, 9} {
        ConstantFields(ok, host, c, x, words, g);
      } else if g < 5 {
        EarlyFields(ok, host, c, x, words, g);
      } else {
        LateFields(ok, host, c, x, words, g);
      }
    }
  }

  predicate FieldsFitFrom(ok: Fit, host: Host, c: Container, x: Context, words: seq<string>, g: nat) {
    forall i :: g <= i < UNTOUCHED ==> FieldsFit(ok, host, c, x, words, i)
  }

  lemma FieldsStep(ok: Fit, host: Host, c: Container, x: Context, words: seq<string>, g: nat)
    requires Generous(ok) && g < UNTOUCHED
    ensures
      var groups := Groups(host, c, x, words);
      Placed(ok, WrittenFrom(groups, g), {})
      <==> FieldsFit(ok, host, c, x, words, g) && Placed(ok, WrittenFrom(groups, g + 1), {})
  {
    var groups := Groups(host, c, x, words);
    GroupIndexed(host, c, x, words, g);
    GroupFields(ok, host, c, x, words, g);
    PlacedAppend(ok, Written(groups[g]), WrittenFrom(groups, g + 1), {});
    assert LaterSections(host, c, x, words, g + 1) + {} == LaterSections(host, c, x, words, g + 1);
  }

  lemma {:induction false} FieldsFrom(ok: Fit, host: Host, c: Container, x: Context, words: seq<string>, g: nat)
    requires Generous(ok) && g <= UNTOUCHED
    ensures Placed(ok, WrittenFrom(Groups(host, c, x, words), g), {}) <==> FieldsFitFrom(ok, host, c, x, words, g)
    decreases UNTOUCHED - g
  {
    if g < UNTOUCHED {
      FieldsFrom(ok, host, c, x, words, g + 1);
      FieldsStep(ok, host, c, x, words, g);
      assert FieldsFitFrom(ok, host, c, x, words, g)
        <==> FieldsFit(ok, host, c, x, words, g) && FieldsFitFrom(ok, host, c, x, words, g + 1);
    }
  }

  // What goes on after the package's options.
  function SectionsAdded(x: Context): set<string> {
    {"Service", KUBERNETES_SECTION} + (if x.previousUnit != "" then {"Unit"} else {})
  }

  lemma SectionsAddedAre(host: Host, c: Container, x: Context, words: seq<string>)
    ensures LaterSections(host, c, x, words, 0) == SectionsAdded(x)
  {
    var groups := Groups(host, c, x, words);
    ServiceLater(host, c, x, words, 0);
    KubernetesLater(host, c, x, words, 0);
    NotLater(host, c, x, words, 0);
    GroupIndexed(host, c, x, words, 4);
    if x.previousUnit != "" {
      AfterWritten(x.previousUnit);
      WrittenIn(groups, 0, 4, UnitOption("Unit", "After", x.previousUnit));
    } else {
      NoUnitFrom(host, c, x, words);
    }
  }

  lemma NoUnitWritten(host: Host, c: Container, x: Context, words: seq<string>, g: nat, o: UnitOption)
    requires g < UNTOUCHED && x.previousUnit == "" && o in Written(GroupNumber(host, c, x, words, g))
    ensures o.section != "Unit"
  {
    GroupsOwned(host, c, x, words);
    GroupIndexed(host, c, x, words, g);
    WrittenAmong(GroupNumber(host, c, x, words, g));
    assert Owner(o.section, o.name) == g;
    assert g != 4;
    OwnedSections(o.section, o.name);
  }

  lemma NoUnitFrom(host: Host, c: Container, x: Context, words: seq<string>)
    requires x.previousUnit == ""
    ensures "Unit" !in LaterSections(host, c, x, words, 0)
  {
    var groups := Groups(host, c, x, words);
    forall o | o in WrittenFrom(groups, 0)
      ensures o.section != "Unit"
    {
      FoundIn(groups, 0, o);
      var g :| 0 <= g < |groups| && o in Written(groups[g]);
      GroupIndexed(host, c, x, words, g);
      NoUnitWritten(host, c, x, words, g, o);
    }
  }

  lemma {:induction false} FoundIn(groups: seq<seq<Edit>>, g: nat, o: UnitOption)
    requires g <= |groups| && o in WrittenFrom(groups, g)
    ensures exists h :: g <= h < |groups| && o in Written(groups[h])
    decreases |groups| - g
  {
    if o !in Written(groups[g]) {
      FoundIn(groups, g + 1, o);
    }
  }

  // All raw fields fit: the options that the package keeps, and the fields that CreatePod writes.
  predicate RawFit(ok: Fit, host: Host, pkg: seq<UnitOption>, c: Container, x: Context)
    requires ProperCommand(c)
  {
    && Placed(ok, KeptOptions(pkg, c, x), SectionsAdded(x))
    && FieldsFitFrom(ok, host, c, x, Words(host, pkg, c), 0)
  }

  lemma CompiledFits(ok: Fit, host: Host, pkg: seq<UnitOption>, c: Container, x: Context)
    requires ProperCommand(c) && Generous(ok)
    ensures Placed(ok, Compiled(host, pkg, c, x), {}) <==> RawFit(ok, host, pkg, c, x)
  {
    var words := Words(host, pkg, c);
    var groups := Groups(host, c, x, words);
    CompiledLayout(host, pkg, c, x);
    WrittenSplit(groups, 0);
    assert [] + WrittenFrom(groups, 0) == WrittenFrom(groups, 0);
    PlacedAppend(ok, KeptOptions(pkg, c, x), WrittenFrom(groups, 0), {});
    SectionsAddedAre(host, c, x, words);
    assert SectionsAdded(x) + {} == SectionsAdded(x);
    FieldsFrom(ok, host, c, x, words, 0);
  }

  // ---- Sections and names are never the problem.

  lemma ProtectNamed()
    ensures PrintableName("ProtectSystem") && PrintableName("ProtectHome")
  {
  }

  lemma PathsNamed()
    ensures PrintableName("PrivateMounts") && PrintableName("ReadOnlyPaths")
  {
  }

  lemma OutputNamed()
    ensures PrintableName("StandardOutput") && PrintableName("StandardError")
  {
  }

  lemma DirectoryNamed()
    ensures PrintableName("WorkingDirectory") && PrintableName("RemainAfterExit")
  {
  }

  lemma UserNamed()
    ensures PrintableName("User") && PrintableName("Group") && PrintableName("Type")
  {
  }

  lemma ExecNamed()
    ensures PrintableName("ExecStart") && PrintableName("After")
  {
  }

  lemma TemporaryNamed()
    ensures PrintableName("TemporaryFileSystem") && PrintableName("ReadWritePaths")
  {
  }

  lemma BindNamed()
    ensures PrintableName("BindPaths") && PrintableName("BindReadOnlyPaths")
  {
  }

  lemma EnvironmentNamed()
    ensures PrintableName("EnvironmentFile") && PrintableName("Environment")
  {
  }

  lemma InitNamed()
    ensures PrintableName("InitContainer") && PrintableName("Namespace")
  {
  }

  lemma MetaNamed()
    ensures PrintableName("ClusterName") && PrintableName("Id") && PrintableName("Image")
  {
  }

  lemma SectionsNamed()
    ensures PrintableSection("Service") && PrintableSection(KUBERNETES_SECTION) && PrintableSection("Unit")
  {
  }

  lemma OwnedNamed(section: string, name: string)
    requires Owner(section, name) < UNTOUCHED
    ensures PrintableSection(section) && PrintableName(name)
  {
    SectionsNamed();
    ProtectNamed();
    PathsNamed();
    OutputNamed();
    DirectoryNamed();
    UserNamed();
    ExecNamed();
    TemporaryNamed();
    BindNamed();
    EnvironmentNamed();
    InitNamed();
    MetaNamed();
  }

  lemma {:induction false} KeptMembers(pkg: seq<UnitOption>, c: Container, x: Context)
    ensures forall o :: o in KeptOptions(pkg, c, x) <==> o in pkg && !Replaced(c, x, o.section, o.name)
  {
    if pkg != [] {
      KeptMembers(pkg[1..], c, x);
      assert pkg == [pkg[0]] + pkg[1..];
    }
  }

  lemma CompiledNamed(host: Host, pkg: seq<UnitOption>, c: Container, x: Context)
    requires ProperCommand(c) && Named(pkg)
    ensures Named(Compiled(host, pkg, c, x))
  {
    var words := Words(host, pkg, c);
    var groups := Groups(host, c, x, words);
    CompiledLayout(host, pkg, c, x);
    KeptMembers(pkg, c, x);
    GroupsOwned(host, c, x, words);
    WrittenOwners(groups, |groups|);
    forall o | o in WrittenOptions(host, c, x, words)
      ensures PrintableSection(o.section) && PrintableName(o.name)
    {
      OwnedNamed(o.section, o.name);
    }
  }
}
